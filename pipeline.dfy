/**
 * `compileShader` and `createProgram`: two stages compiled independently,
 * then linked; any failure yields no program. The compile and link
 * outcomes are the driver's and come in as booleans.
 */
module Pipeline {
  import opened Optional

  datatype Stage = VertexStage | FragmentStage

  /** A compiled shader object. */
  datatype Shader = Shader(stage: Stage)

  /** A linked program made of one vertex and one fragment shader. */
  datatype Program = Program(vertex: Shader, fragment: Shader)

  /** A diagnostic reported on the console (and by an alert). */
  datatype Diagnostic = CompileError(stage: Stage) | LinkError

  /** What `createProgram` returns, with the diagnostics reported on the way, in order. */
  datatype Build = Build(program: Option<Program>, log: seq<Diagnostic>)

  /** `compileShader`: the shader when its compile status is set, null otherwise. */
  function CompileShader(stage: Stage, compiles: bool): Option<Shader>
  {
    if compiles then Some(Shader(stage)) else None
  }

  /**
   * `createProgram`: both stages are compiled, each failure reported;
   * linking is attempted only when both compiled.
   */
  function CreateProgram(vertexCompiles: bool, fragmentCompiles: bool, links: bool): (r: Build)
    ensures r.program.Some? <==> vertexCompiles && fragmentCompiles && links
    ensures r.program.Some? <==> r.log == []
    ensures r.program.Some? ==> r.program.value == Program(Shader(VertexStage), Shader(FragmentStage))
    ensures CompileError(VertexStage) in r.log <==> !vertexCompiles
    ensures CompileError(FragmentStage) in r.log <==> !fragmentCompiles
    ensures LinkError in r.log <==> vertexCompiles && fragmentCompiles && !links
    ensures |r.log| <= 2
    ensures !vertexCompiles && !fragmentCompiles ==> r.log == [CompileError(VertexStage), CompileError(FragmentStage)]
  {
    var vs := CompileShader(VertexStage, vertexCompiles);
    var fs := CompileShader(FragmentStage, fragmentCompiles);
    var compileLog := (if vs.None? then [CompileError(VertexStage)] else [])
                    + (if fs.None? then [CompileError(FragmentStage)] else []);
    if vs.None? || fs.None? then Build(None, compileLog)
    else if !links then Build(None, [LinkError])
    else Build(Some(Program(vs.value, fs.value)), [])
  }
}
