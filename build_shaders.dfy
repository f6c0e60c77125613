// shaders/build_shaders.py: the script that compiles a directory's
// vertex.glsl and fragment.glsl to SPIR-V with glslangValidator. The
// filesystem queries (is the tool on PATH, does a file or directory exist)
// and the compiler's exit code are inputs; a compile is recorded as the
// command line the script hands to subprocess.call.
module BuildShaders {
  import opened Wrappers

  const GLSLANG: string := "glslangValidator"

  /** os.path.join for a second component that is a relative name. */
  function PathJoin(dir: string, name: string): (r: string)
    requires name != [] && name[0] != '/'
    ensures r == dir + name || r == dir + "/" + name
  {
    if dir == [] || dir[|dir| - 1] == '/' then dir + name else dir + "/" + name
  }

  /** The index of the last occurrence of `c` in `s`, or -1 when there is none. */
  function LastIndexOf(s: string, c: char): (r: int)
    ensures -1 <= r < |s|
    ensures r >= 0 ==> s[r] == c
  {
    if s == [] then -1
    else if s[|s| - 1] == c then |s| - 1
    else LastIndexOf(s[..|s| - 1], c)
  }

  /** Some character of s[lo..hi] is not a dot. */
  predicate HasNonDot(s: string, lo: int, hi: int)
    requires 0 <= lo && hi <= |s|
  {
    exists k :: lo <= k < hi && s[k] != '.'
  }

  /**
   * os.path.splitext (POSIX): the extension starts at the last dot when that
   * dot is in the last path component and is not one of the component's
   * leading dots; otherwise there is no extension.
   */
  function SplitExt(path: string): (r: (string, string))
    ensures r.0 + r.1 == path
    ensures r.1 != [] ==> r.1[0] == '.'
  {
    var sep := LastIndexOf(path, '/');
    var dot := LastIndexOf(path, '.');
    if dot > sep && HasNonDot(path, sep + 1, dot) then (path[..dot], path[dot..])
    else (path, [])
  }

  /** The last occurrence of `c` in `a + b` is found in `b` when `b` has one. */
  lemma {:induction false} LastIndexOfAppend(a: string, b: string, c: char)
    requires LastIndexOf(b, c) >= 0
    ensures LastIndexOf(a + b, c) == |a| + LastIndexOf(b, c)
  {
    var s := a + b;
    if b[|b| - 1] != c {
      var b' := b[..|b| - 1];
      assert s[..|s| - 1] == a + b';
      LastIndexOfAppend(a, b', c);
    }
  }

  /** The last occurrence of `c` in `a + b` is the one in `a` when `b` has none. */
  lemma {:induction false} LastIndexOfAppendNone(a: string, b: string, c: char)
    requires LastIndexOf(b, c) == -1
    ensures LastIndexOf(a + b, c) == LastIndexOf(a, c)
  {
    if b != [] {
      var s := a + b;
      var b' := b[..|b| - 1];
      assert s[..|s| - 1] == a + b';
      LastIndexOfAppendNone(a, b', c);
    } else {
      assert a + b == a;
    }
  }

  /** build_shader's output path: the input with its extension replaced by ".spv". */
  function OutputPath(filepath: string): string
  {
    SplitExt(filepath).0 + ".spv"
  }

  /**
   * Replacing an extension: a path made of a stem whose last component has a
   * character other than a dot, a dot, and a word without dots or slashes
   * gets the stem followed by ".spv" (so `shaders/vertex.glsl` becomes
   * `shaders/vertex.spv`).
   */
  lemma {:induction false} OutputPathReplacesExtension(stem: string, word: string)
    requires '.' !in word && '/' !in word
    requires HasNonDot(stem, LastIndexOf(stem, '/') + 1, |stem|)
    ensures OutputPath(stem + ['.'] + word) == stem + ".spv"
  {
    var ext := ['.'] + word;
    var path := stem + ext;
    assert stem + ['.'] + word == path;
    NoOccurrence(word, '.');
    NoOccurrence(word, '/');
    LastIndexOfAppendNone(['.'], word, '.');
    LastIndexOfAppendNone(['.'], word, '/');
    assert LastIndexOf(['.'], '/') == -1;
    LastIndexOfAppend(stem, ext, '.');
    LastIndexOfAppendNone(stem, ext, '/');
    var sep := LastIndexOf(stem, '/');
    var k :| sep + 1 <= k < |stem| && stem[k] != '.';
    assert path[k] == stem[k];
    assert HasNonDot(path, sep + 1, |stem|);
    assert path[..|stem|] == stem;
  }

  /** A string without `c` has no last occurrence of it. */
  lemma {:induction false} NoOccurrence(s: string, c: char)
    requires c !in s
    ensures LastIndexOf(s, c) == -1
  {
    if s != [] {
      assert c !in s[..|s| - 1];
      NoOccurrence(s[..|s| - 1], c);
    }
  }

  /** The command line build_shader hands to subprocess.call. */
  function CommandString(stage: string, fin: string, fout: string): string
  {
    GLSLANG + (" --spirv-val --glsl-version 450 -S " + (stage + (" -V " + (fin + (" -o " + fout)))))
  }

  /**
   * The argument vector the command line stands for: the tool as the
   * program, then the options, the stage after -S, the input after -V and
   * the output after -o.
   */
  function Argv(stage: string, fin: string, fout: string): seq<string>
  {
    [GLSLANG, "--spirv-val", "--glsl-version", "450", "-S", stage, "-V", fin, "-o", fout]
  }

  /** str.split(' '): the pieces of `s` between single spaces. */
  function SplitOnSpace(s: string): (r: seq<string>)
    ensures |r| >= 1
  {
    if s == [] then [[]]
    else
      var rest := SplitOnSpace(s[1..]);
      if s[0] == ' ' then [[]] + rest else [[s[0]] + rest[0]] + rest[1..]
  }

  /** A word without spaces splits into itself. */
  lemma {:induction false} SplitWord(w: string)
    requires ' ' !in w
    ensures SplitOnSpace(w) == [w]
  {
    if w != [] {
      assert ' ' !in w[1..];
      SplitWord(w[1..]);
      assert [w[0]] + w[1..] == w;
    }
  }

  /** A word without spaces followed by a space splits off as the first piece. */
  lemma {:induction false} SplitWordSpace(w: string, rest: string)
    requires ' ' !in w
    ensures SplitOnSpace(w + (" " + rest)) == [w] + SplitOnSpace(rest)
  {
    var s := w + (" " + rest);
    if w == [] {
      assert s[0] == ' ' && s[1..] == rest;
    } else {
      assert s[0] == w[0] && s[1..] == w[1..] + (" " + rest);
      assert ' ' !in w[1..];
      SplitWordSpace(w[1..], rest);
      assert [w[0]] + w[1..] == w;
    }
  }

  /** Words joined by single spaces, as the command line is built. */
  function JoinWords(ws: seq<string>): string
  {
    if |ws| == 0 then "" else if |ws| == 1 then ws[0] else ws[0] + (" " + JoinWords(ws[1..]))
  }

  /** Splitting words joined by spaces gives the words back, when none holds a space. */
  lemma {:induction false} SplitJoinWords(ws: seq<string>)
    requires |ws| >= 1
    requires forall k :: 0 <= k < |ws| ==> ' ' !in ws[k]
    ensures SplitOnSpace(JoinWords(ws)) == ws
  {
    if |ws| == 1 {
      SplitWord(ws[0]);
    } else {
      SplitJoinWords(ws[1..]);
      SplitWordSpace(ws[0], JoinWords(ws[1..]));
      assert [ws[0]] + ws[1..] == ws;
    }
  }

  /** Joining a word in front of at least one more adds it and a space. */
  lemma JoinWordsCons(w: string, ws: seq<string>)
    requires |ws| >= 1
    ensures JoinWords([w] + ws) == w + (" " + JoinWords(ws))
  {
    assert ([w] + ws)[1..] == ws;
  }

  /** A word between two spaces, then the rest. */
  lemma SpacedWord(w: string, x: string)
    ensures (" " + w + " ") + x == " " + (w + (" " + x))
  {
  }

  /** The option words of the template, spelled one by one. */
  lemma OptionsSpelled(x: string)
    ensures " --spirv-val --glsl-version 450 -S " + x ==
      " " + ("--spirv-val" + (" " + ("--glsl-version" + (" " + ("450" + (" " + ("-S" + (" " + x))))))))
  {
    assert " --spirv-val --glsl-version 450 -S " == " " + "--spirv-val" + " " + "--glsl-version 450 -S ";
    assert "--glsl-version 450 -S " == "--glsl-version" + " " + "450" + " " + "-S" + " ";
    SpacedWord("-S", x);
    SpacedWord("450", "-S" + (" " + x));
    SpacedWord("--glsl-version", "450" + (" " + ("-S" + (" " + x))));
    SpacedWord("--spirv-val", "--glsl-version" + (" " + ("450" + (" " + ("-S" + (" " + x))))));
  }

  /** The command line is the argument vector joined by spaces. */
  lemma CommandIsJoinedArgv(stage: string, fin: string, fout: string)
    ensures CommandString(stage, fin, fout) == JoinWords(Argv(stage, fin, fout))
  {
    var w := Argv(stage, fin, fout);
    assert w == [GLSLANG] + ["--spirv-val", "--glsl-version", "450", "-S", stage, "-V", fin, "-o", fout];
    assert JoinWords(["-o", fout]) == "-o" + (" " + fout);
    JoinWordsCons(fin, ["-o", fout]);
    JoinWordsCons("-V", [fin, "-o", fout]);
    JoinWordsCons(stage, ["-V", fin, "-o", fout]);
    JoinWordsCons("-S", [stage, "-V", fin, "-o", fout]);
    JoinWordsCons("450", ["-S", stage, "-V", fin, "-o", fout]);
    JoinWordsCons("--glsl-version", ["450", "-S", stage, "-V", fin, "-o", fout]);
    JoinWordsCons("--spirv-val", ["--glsl-version", "450", "-S", stage, "-V", fin, "-o", fout]);
    JoinWordsCons(GLSLANG, ["--spirv-val", "--glsl-version", "450", "-S", stage, "-V", fin, "-o", fout]);
    assert " -o " == " " + "-o" + " ";
    SpacedWord("-o", fout);
    assert " -V " == " " + "-V" + " ";
    SpacedWord("-V", fin + (" -o " + fout));
    OptionsSpelled(stage + (" -V " + (fin + (" -o " + fout))));
  }

  /**
   * The argument vector is the command line split at its spaces, whenever
   * the stage and the two paths contain no space: it is the command the
   * script spells out, with the tool as the program.
   */
  lemma ArgvIsCommandSplit(stage: string, fin: string, fout: string)
    requires ' ' !in stage && ' ' !in fin && ' ' !in fout
    ensures SplitOnSpace(CommandString(stage, fin, fout)) == Argv(stage, fin, fout)
    ensures Argv(stage, fin, fout)[0] == GLSLANG
  {
    var w := Argv(stage, fin, fout);
    forall k | 0 <= k < |w|
      ensures ' ' !in w[k]
    {
      if k == 0 { assert w[k] == GLSLANG; }
      else if k == 1 { assert w[k] == "--spirv-val"; }
      else if k == 2 { assert w[k] == "--glsl-version"; }
      else if k == 3 { assert w[k] == "450"; }
      else if k == 4 { assert w[k] == "-S"; }
      else if k == 6 { assert w[k] == "-V"; }
      else if k == 8 { assert w[k] == "-o"; }
    }
    CommandIsJoinedArgv(stage, fin, fout);
    SplitJoinWords(w);
  }

  /**
   * The argument vector subprocess.call receives on a POSIX system when
   * given a single string without shell=True: the whole string is the
   * program to run.
   */
  function PosixArgvAsWritten(stage: string, fin: string, fout: string): seq<string>
  {
    [CommandString(stage, fin, fout)]
  }

  /**
   * On a POSIX system the program build_shader asks to run is never
   * glslangValidator: it is the whole command line, spaces included.
   */
  lemma PosixProgramIsNotTheTool(stage: string, fin: string, fout: string)
    ensures PosixArgvAsWritten(stage, fin, fout)[0] != GLSLANG
    ensures ' ' in PosixArgvAsWritten(stage, fin, fout)[0]
  {
    var cmd := CommandString(stage, fin, fout);
    assert cmd[|GLSLANG|] == ' ';
  }

  /**
   * How build_shader hands its command to subprocess.call: as the single
   * string the script builds (WholeString, as written), or as the argument
   * vector that string spells (ArgumentVector, the evident intent).
   */
  datatype Launch = WholeString | ArgumentVector

  /** The argument vector the operating system receives, on a POSIX system. */
  function LaunchedArgv(launch: Launch, stage: string, fin: string, fout: string): seq<string>
  {
    match launch
    case WholeString => PosixArgvAsWritten(stage, fin, fout)
    case ArgumentVector => Argv(stage, fin, fout)
  }

  /** One compile: the input file, the stage and the argument vector launched for it. */
  datatype Compile = Compile(file: string, stage: string, argv: seq<string>)

  /** The compile build_shader attempts for a file and a stage. */
  function CompileOf(filepath: string, stage: string, launch: Launch): Compile
  {
    Compile(filepath, stage, LaunchedArgv(launch, stage, filepath, OutputPath(filepath)))
  }

  /** A Python call either returns a value or raises FileNotFoundError. */
  datatype Call<T> = Returns(value: T) | RaisesFileNotFound

  /**
   * build_shader, given the exit code the compiler returns. It launches the
   * command for the file's output path. The only program known to be on
   * PATH is glslangValidator, so the call raises FileNotFoundError exactly
   * when the launched program is some other name, which the whole-string
   * launch always gives; otherwise it returns 5 whatever the compiler
   * reported.
   */
  method BuildShader(filepath: string, stage: string, launch: Launch, compilerExit: int)
    returns (r: Call<int>, compile: Compile)
    ensures compile == CompileOf(filepath, stage, launch)
    ensures r.RaisesFileNotFound? <==> compile.argv[0] != GLSLANG
    ensures r.RaisesFileNotFound? <==> launch == WholeString
    ensures r.Returns? ==> r.value == 5
  {
    var outPath := SplitExt(filepath).0 + ".spv";
    var cmd := " --spirv-val --glsl-version 450 -S " + (stage + (" -V " + (filepath + (" -o " + outPath))));
    cmd := GLSLANG + cmd;
    var argv := if launch == WholeString then [cmd] else Argv(stage, filepath, outPath);
    compile := Compile(filepath, stage, argv);
    PosixProgramIsNotTheTool(stage, filepath, outPath);
    if argv[0] != GLSLANG {
      return RaisesFileNotFound, compile;
    }
    r := Returns(5);
  }

  /** The vertex and fragment shader files of a directory. */
  function VertexFile(dir: string): string { PathJoin(dir, "vertex.glsl") }
  function FragmentFile(dir: string): string { PathJoin(dir, "fragment.glsl") }

  /**
   * build_shaderdir, given whether glslangValidator is on PATH, whether the
   * two shader files exist, and the compiler's exit codes. It fails without
   * compiling when the tool or vertex.glsl is missing. Otherwise it compiles
   * vertex.glsl as 'vert' first: launched as one string that raises, and
   * fragment.glsl is never looked at. Launched as an argument vector, a
   * missing fragment.glsl fails after one compile, and with both files it
   * compiles both and succeeds. The compiler's exit codes never matter.
   */
  method BuildShaderDir(dir: string, launch: Launch, toolExists: bool, vertexExists: bool,
                        fragmentExists: bool, vertexExit: int, fragmentExit: int)
    returns (r: Call<bool>, compiles: seq<Compile>)
    ensures !toolExists || !vertexExists ==> r == Returns(false) && compiles == []
    ensures toolExists && vertexExists ==>
      |compiles| >= 1 && compiles[0] == CompileOf(VertexFile(dir), "vert", launch)
    ensures launch == WholeString && toolExists && vertexExists ==>
      r == RaisesFileNotFound && |compiles| == 1
    ensures launch == ArgumentVector ==> r == Returns(toolExists && vertexExists && fragmentExists)
    ensures launch == ArgumentVector && toolExists && vertexExists && !fragmentExists ==> |compiles| == 1
    ensures r == Returns(true) ==>
      compiles == [CompileOf(VertexFile(dir), "vert", launch), CompileOf(FragmentFile(dir), "frag", launch)]
    ensures |compiles| <= 2
  {
    compiles := [];
    if !toolExists {
      return Returns(false), compiles;
    }
    var fVertex := PathJoin(dir, "vertex.glsl");
    if !vertexExists {
      return Returns(false), compiles;
    } else {
      var built, c := BuildShader(fVertex, "vert", launch, vertexExit);
      compiles := compiles + [c];
      if built.RaisesFileNotFound? {
        return RaisesFileNotFound, compiles;
      }
    }
    var fFragment := PathJoin(dir, "fragment.glsl");
    if !fragmentExists {
      return Returns(false), compiles;
    } else {
      var built, c := BuildShader(fFragment, "frag", launch, fragmentExit);
      compiles := compiles + [c];
      if built.RaisesFileNotFound? {
        return RaisesFileNotFound, compiles;
      }
    }
    r := Returns(true);
  }

  /**
   * How main ends: argparse reports a usage error (exiting with status 2),
   * main returns None or a number, or an exception escapes it.
   */
  datatype MainOutcome = UsageError | ReturnedNone | Returned(code: int) | Raised

  /** A string argument is truthy in Python when it is present and non-empty. */
  predicate Truthy(arg: Option<string>)
  {
    arg.Some? && arg.value != []
  }

  /**
   * main, given how build_shader launches the compiler, the parsed arguments
   * (--clean and the optional directory), the working directory, whether the
   * joined path is a directory and what build_shaderdir's queries report.
   * Neither --clean nor a directory is a usage error; --clean alone, or a
   * directory that does not exist, returns None. Otherwise, launched as one
   * string, a run that reaches a compile raises after that one compile;
   * every other run returns 0 on success and 1 on failure. --clean deletes
   * nothing.
   */
  method RunMain(launch: Launch, clean: bool, directory: Option<string>, cwd: string, isDir: bool,
                 toolExists: bool, vertexExists: bool, fragmentExists: bool)
    returns (outcome: MainOutcome, compiles: seq<Compile>)
    ensures !clean && !Truthy(directory) ==> outcome == UsageError
    ensures clean && !Truthy(directory) ==> outcome == ReturnedNone
    ensures Truthy(directory) && !isDir ==> outcome == ReturnedNone
    ensures outcome.UsageError? || outcome.ReturnedNone? ==> compiles == []
    ensures Truthy(directory) && isDir && launch == WholeString && toolExists && vertexExists ==>
      outcome == Raised && |compiles| == 1
    ensures Truthy(directory) && isDir && (launch == ArgumentVector || !toolExists || !vertexExists) ==>
      outcome == Returned(if toolExists && vertexExists && fragmentExists then 0 else 1)
  {
    compiles := [];
    if !clean && !Truthy(directory) {
      return UsageError, compiles;
    }
    if !Truthy(directory) {
      return ReturnedNone, compiles;
    }
    var dirpath := if directory.value[0] == '/' then directory.value else PathJoin(cwd, directory.value);
    if !isDir {
      return ReturnedNone, compiles;
    }
    var success;
    success, compiles := BuildShaderDir(dirpath, launch, toolExists, vertexExists, fragmentExists, 0, 0);
    if success.RaisesFileNotFound? {
      return Raised, compiles;
    }
    if success.value {
      outcome := Returned(0);
    } else {
      outcome := Returned(1);
    }
  }

  /**
   * The process's exit status: the `__main__` guard discards main's value,
   * so a usage error exits with status 2, an escaped exception with status
   * 1, and every run main returns from, a failed build included, with 0.
   */
  function ExitStatus(outcome: MainOutcome): (status: int)
    ensures status == 2 <==> outcome.UsageError?
    ensures status == 1 <==> outcome.Raised?
    ensures status == 0 <==> outcome.ReturnedNone? || outcome.Returned?
  {
    match outcome
    case UsageError => 2
    case Raised => 1
    case _ => 0
  }
}
