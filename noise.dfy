/** `createNoiseTexture`'s fill loop: a 64^3 volume of random bytes. */
module Noise {

  /** Side length of the cube. */
  const Size: nat := 64

  /** Number of samples in the volume. */
  const Volume: nat := Size * Size * Size

  /** `Math.floor(Math.random() * 256)` for a draw `r` of Math.random. */
  function Sample(r: real): (b: int)
    requires 0.0 <= r < 1.0
    ensures 0 <= b < 256
    ensures b as real <= r * 256.0 < b as real + 1.0
  {
    (r * 256.0).Floor
  }

  /**
   * Allocates the zero-filled byte array and overwrites every entry with
   * its own random sample. Math.random is a nondeterministic choice in
   * [0, 1); `draws` records the choice made for each index.
   */
  method CreateNoiseTexture() returns (data: array<int>, ghost draws: seq<real>)
    ensures fresh(data)
    ensures data.Length == Volume == 262144
    ensures |draws| == data.Length
    ensures forall k :: 0 <= k < data.Length ==> 0.0 <= draws[k] < 1.0 && data[k] == Sample(draws[k])
    ensures forall k :: 0 <= k < data.Length ==> 0 <= data[k] < 256
  {
    data := new int[Volume](_ => 0);
    draws := [];
    for i := 0 to data.Length
      invariant |draws| == i
      invariant forall k :: 0 <= k < i ==> 0.0 <= draws[k] < 1.0 && data[k] == Sample(draws[k])
    {
      var r: real :| 0.0 <= r < 1.0;
      data[i] := Sample(r);
      draws := draws + [r];
    }
  }
}
