/**
 * Text builders for the host construction context (host/construction.py):
 * comments, constants and definitions of the build-rule vector language, the
 * host target, variants and type records, the linker choice, and the small
 * tuple builders for sole and set factors.
 *
 * The plan serializer is a parameter; the factories that instantiate projects
 * on disk are not part of this model.
 */
module HostConstruction {
  import opened Text
  import opened Plans

  /** `comment`: one comment line. */
  function Comment(text: string): (r: string)
    ensures |r| == |text| + 3
    ensures r[..2] == "# " && r[2..|r| - 1] == text && r[|r| - 1] == '\n'
  {
    "# " + text + "\n"
  }

  /** `constant`: a header line, then one `\t: ` line per type and a blank line when there are types. */
  function Constant(name: string, types: seq<string>): (r: string)
    ensures |r| >= |name| + 2 && r[..|name| + 2] == name + ":\n"
    ensures |types| == 0 <==> r == name + ":\n"
    ensures |types| > 0 ==> r[|r| - 2..] == "\n\n"
  {
    var init := name + ":\n";
    if |types| > 0 then init + "\t: " + Join(types, "\n\t: ") + "\n\n" else init
  }

  /** One line of a definition, without its newline: the value follows only when it is not empty. */
  function DefineLine(conclusion: string, vfe: string): string
  {
    "\t" + conclusion + ":" + (if vfe != "" then " " + vfe else "")
  }

  /** The lines of `define`'s pairs, in input order. */
  function DefineLines(pairs: seq<(string, string)>): (ls: seq<string>)
    ensures |ls| == |pairs|
    ensures forall i | 0 <= i < |pairs| :: ls[i] == DefineLine(pairs[i].0, pairs[i].1)
  {
    seq(|pairs|, i requires 0 <= i < |pairs| => DefineLine(pairs[i].0, pairs[i].1))
  }

  /** The lines of a definition: its header, then one line per pair. */
  function DefinitionLines(name: string, pairs: seq<(string, string)>): seq<string>
  {
    [name + ":"] + DefineLines(pairs)
  }

  /** What `define` accumulates after its header, pair by pair: the specification of its loop.
      The type-record functions need the same text, and a function cannot call a method, so
      `define` is stated three ways: `DefineBody`/`DefineText` as values, `DefinitionLines` as
      lines, and the method `Define` as the loop itself, proved equal to both. */
  function DefineBody(pairs: seq<(string, string)>): string
  {
    if |pairs| == 0 then ""
    else DefineBody(pairs[..|pairs| - 1]) + DefineLine(pairs[|pairs| - 1].0, pairs[|pairs| - 1].1) + "\n"
  }

  /** The text `define` returns: its header, then the accumulated pair lines. */
  function DefineText(name: string, pairs: seq<(string, string)>): (r: string)
    ensures |r| >= |name| + 2 && r[..|name| + 2] == name + ":\n"
    ensures |pairs| == 0 <==> r == name + ":\n"
    ensures r[|r| - 1] == '\n'
  {
    name + ":\n" + DefineBody(pairs)
  }

  /** `define`: the header, then each pair's line appended in turn. */
  method Define(name: string, pairs: seq<(string, string)>) returns (s: string)
    ensures s == Unlines(DefinitionLines(name, pairs))
  {
    s := name + ":\n";
    for i := 0 to |pairs|
      invariant s == name + ":\n" + DefineBody(pairs[..i])
    {
      var (conclusion, vfe) := pairs[i];
      s := s + "\t" + conclusion + ":" + (if vfe != "" then " " + vfe else "");
      s := s + "\n";
      assert pairs[..i + 1][..i] == pairs[..i];
    }
    assert pairs[..|pairs|] == pairs;
    DefineTextLines(name, pairs);
  }

  /** The lines of a constant: header, one tab-colon line per type, and a blank line when there are types. */
  function ConstantLines(name: string, types: seq<string>): seq<string>
  {
    [name + ":"] + (if |types| > 0 then Prefixed("\t: ", types) + [""] else [])
  }

  /** A constant is exactly its lines, each closed by a newline. */
  lemma ConstantIsLines(name: string, types: seq<string>)
    ensures Constant(name, types) == Unlines(ConstantLines(name, types))
  {
    var head := [name + ":"];
    assert Unlines(head) == name + ":\n";
    if |types| > 0 {
      var body := Prefixed("\t: ", types) + [""];
      var j := Join(types, "\n\t: ");
      assert "\n" + "\t: " == "\n\t: ";
      JoinPrefixed("\t: ", types);
      assert Unlines([""]) == "\n";
      UnlinesAppend(Prefixed("\t: ", types), [""]);
      assert Unlines(body) == "\t: " + j + "\n" + "\n";
      UnlinesAppend(head, body);
      assert "\n" + "\n" == "\n\n";
    } else {
      assert ConstantLines(name, types) == head;
    }
  }

  /** A definition is exactly its header line and one line per pair, each closed by a newline. */
  lemma {:induction false} DefineBodyLines(pairs: seq<(string, string)>)
    ensures DefineBody(pairs) == Unlines(DefineLines(pairs))
    decreases |pairs|
  {
    if |pairs| > 0 {
      var n := |pairs| - 1;
      DefineBodyLines(pairs[..n]);
      assert DefineLines(pairs) == DefineLines(pairs[..n]) + [DefineLine(pairs[n].0, pairs[n].1)];
      UnlinesAppend(DefineLines(pairs[..n]), [DefineLine(pairs[n].0, pairs[n].1)]);
    }
  }

  lemma DefineTextLines(name: string, pairs: seq<(string, string)>)
    ensures DefineText(name, pairs) == Unlines(DefinitionLines(name, pairs))
  {
    DefineBodyLines(pairs);
    UnlinesAppend([name + ":"], DefineLines(pairs));
  }

  /** Read back, a comment is one line and a final empty field. */
  lemma CommentReadBack(text: string)
    requires '\n' !in text
    ensures Lines(Comment(text)) == ["# " + text, ""]
  {
    assert Comment(text) == Unlines(["# " + text]);
    LinesOfUnlines(["# " + text]);
  }

  /** Read back, a constant gives its header, its types each behind `\t: ` in order, and the blank line. */
  lemma ConstantReadBack(name: string, types: seq<string>)
    requires '\n' !in name && Free(types, '\n')
    ensures Lines(Constant(name, types)) == ConstantLines(name, types) + [""]
  {
    ConstantIsLines(name, types);
    var ls := ConstantLines(name, types);
    forall i | 0 <= i < |ls| ensures '\n' !in ls[i] {
      if 0 < i < |types| + 1 {
        assert ls[i] == "\t: " + types[i - 1];
      }
    }
    LinesOfUnlines(ls);
  }

  /** Read back, a definition gives its header and one line per pair in input order. */
  lemma DefineReadBack(name: string, pairs: seq<(string, string)>)
    requires '\n' !in name
    requires forall i | 0 <= i < |pairs| :: '\n' !in pairs[i].0 && '\n' !in pairs[i].1
    ensures Lines(DefineText(name, pairs)) == DefinitionLines(name, pairs) + [""]
  {
    DefineTextLines(name, pairs);
    var ls := DefinitionLines(name, pairs);
    forall i | 0 <= i < |ls| ensures '\n' !in ls[i] {
      if i > 0 {
        assert ls[i] == DefineLine(pairs[i - 1].0, pairs[i - 1].1);
      }
    }
    LinesOfUnlines(ls);
  }

  /** The fixed part of `form_host_target`: the commented option constants that precede the linker choice. */
  const HostTargetOptions: string :=
    var target := "";
    var target := target + Comment("Options for the selected CC. Included regardless of language.");
    var target := target + Constant("-system-cc-options", []);

    var target := target + "\n";
    var target := target + Comment("Directory paths (-isystem) to system headers.");
    var target := target + Constant("-system-includes", ["/usr/local/include"]);

    var target := target + "\n";
    var target := target + Comment("Defines (-D implied) to include as command options.");
    var target := target + Constant("-system-defines", []);

    var target := target + "\n";
    var target := target + Comment("Libraries to unconditionally link against.");
    var target := target + Constant("-system-libraries", []);

    var target := target + "\n";
    var target := target + Comment("Additional paths to look in to find [-system-libraries].");
    var target := target + Constant("-system-library-directories", ["/usr/local/lib"]);

    var target := target + "\n";
    var target := target + Comment("Compiler flags used to select the target architecture.");
    var target := target + Constant("-cc-select-architecture", ["-march=native"]);

    var target := target + "\n";
    var target := target + Comment("One of: -apple-ld-macho -gnu-ld-elf -llvm-ld-elf");
    var target := target + Comment("Linker backend should be designated here as well if desired.");
    var target := target + Comment("However, it and the option must be matched with the corresponding adapter.");
    target + Comment("-fuse-ld=llvm|bfd|gold")

  /** `form_host_target`: the host's compiler options, ending with the linker interface constant. */
  function FormHostTarget(hlinker: string): (target: string)
    ensures var c := Constant("-cc-select-ld-interface", [hlinker]);
      |target| >= |c| && target[..|target| - |c|] == HostTargetOptions && target[|target| - |c|..] == c
  {
    HostTargetOptions + Constant("-cc-select-ld-interface", [hlinker])
  }

  /** The linker interface constant holds exactly the one interface, on its own `\t: ` line. */
  lemma LinkerConstant(hlinker: string)
    ensures Constant("-cc-select-ld-interface", [hlinker]) == "-cc-select-ld-interface:\n\t: " + hlinker + "\n\n"
  {
    assert Join([hlinker], "\n\t: ") == hlinker;
  }

  /** Different linker interfaces give different host targets. */
  lemma FormHostTargetInjective(a: string, b: string)
    requires FormHostTarget(a) == FormHostTarget(b)
    ensures a == b
  {
    var ca, cb := Constant("-cc-select-ld-interface", [a]), Constant("-cc-select-ld-interface", [b]);
    assert ca == FormHostTarget(a)[|HostTargetOptions|..];
    assert cb == FormHostTarget(b)[|HostTargetOptions|..];
    LinkerConstant(a);
    LinkerConstant(b);
    var header := "-cc-select-ld-interface:\n\t: ";
    assert a == ca[|header|..|ca| - 2];
    assert b == cb[|header|..|cb| - 2];
  }

  /** `form_variants`: the `[systems]` and per-system constants, and `[forms]` only when there are forms. */
  function FormVariants(system: string, architecture: string, forms: seq<string> := []): (r: string)
    ensures var head := Constant("[systems]", [system]) + Constant("[" + system + "]", [architecture]);
      && |r| >= |head| && r[..|head|] == head
      && (|forms| == 0 <==> r == head)
  {
    var variants := "";
    var variants := variants + Constant("[systems]", [system]);
    assert variants == Constant("[systems]", [system]);
    var variants := variants + Constant("[" + system + "]", [architecture]);
    var head := variants;
    var variants := if |forms| > 0 then variants + Constant("[forms]", forms) else variants;
    assert |forms| > 0 ==> |variants| > |head| && variants[..|head|] == head;
    variants
  }

  /** Read back, the variants record is the systems constant, the system's architecture
      constant, and the forms constant exactly when forms were given. */
  lemma FormVariantsReadBack(system: string, architecture: string, forms: seq<string>)
    requires '\n' !in system && '\n' !in architecture && Free(forms, '\n')
    ensures Lines(FormVariants(system, architecture, forms)) ==
      ["[systems]:", "\t: " + system, "", "[" + system + "]:", "\t: " + architecture, ""]
      + (if |forms| > 0 then ConstantLines("[forms]", forms) else [])
      + [""]
  {
    var head := ["[systems]:", "\t: " + system, "", "[" + system + "]:", "\t: " + architecture, ""];
    var c := if |forms| > 0 then ConstantLines("[forms]", forms) else [];
    FormVariantsIsLines(system, architecture, forms);
    var ls := head + c;
    assert '\n' !in "[systems]:";
    assert '\n' !in "[" + system + "]:";
    forall i | 0 <= i < |ls| ensures '\n' !in ls[i] {
      if 6 < i < |ls| - 1 {
        assert ls[i] == "\t: " + forms[i - 7];
      }
    }
    LinesOfUnlines(ls);
  }

  /** The variants record as lines: the two single-type constants, then the forms constant if any. */
  lemma FormVariantsIsLines(system: string, architecture: string, forms: seq<string>)
    ensures FormVariants(system, architecture, forms) ==
      Unlines(["[systems]:", "\t: " + system, "", "[" + system + "]:", "\t: " + architecture, ""]
        + (if |forms| > 0 then ConstantLines("[forms]", forms) else []))
  {
    var a := ConstantLines("[systems]", [system]);
    var b := ConstantLines("[" + system + "]", [architecture]);
    var c := if |forms| > 0 then ConstantLines("[forms]", forms) else [];
    var tail := if |forms| > 0 then Constant("[forms]", forms) else "";
    assert FormVariants(system, architecture, forms)
      == Constant("[systems]", [system]) + Constant("[" + system + "]", [architecture]) + tail;
    assert Constant("[systems]", [system]) + Constant("[" + system + "]", [architecture]) == Unlines(a + b) by {
      ConstantIsLines("[systems]", [system]);
      ConstantIsLines("[" + system + "]", [architecture]);
      UnlinesAppend(a, b);
    }
    assert tail == Unlines(c) by {
      if |forms| > 0 {
        ConstantIsLines("[forms]", forms);
      }
    }
    UnlinesAppend(a + b, c);
    VariantsHead(system, architecture);
  }

  lemma VariantsHead(system: string, architecture: string)
    ensures ConstantLines("[systems]", [system]) + ConstantLines("[" + system + "]", [architecture])
      == ["[systems]:", "\t: " + system, "", "[" + system + "]:", "\t: " + architecture, ""]
  {
    SingleConstantLines("[systems]", system);
    SingleConstantLines("[" + system + "]", architecture);
    assert "[systems]" + ":" == "[systems]:";
    assert "[" + system + "]" + ":" == "[" + system + "]:" by { assert "]" + ":" == "]:"; }
  }

  /** The lines of a constant with a single type. */
  lemma SingleConstantLines(name: string, t: string)
    ensures ConstantLines(name, [t]) == [name + ":", "\t: " + t, ""]
  {
    assert Prefixed("\t: ", [t]) == ["\t: " + t];
  }

  /** `form_host_type`: a comment, the compile and link tool definitions each followed by a blank
      line, and Translate and Render each leading with a reference to its tool. */
  function FormHostType(): (common: string)
    ensures common == Unlines(
      ["# Alternatively, ..context.usr-cc."]
      + DefinitionLines("-cc-compile-tool", [("fv-form-delineated", ".cc-delineate"), ("!", ".cc")]) + [""]
      + DefinitionLines("-cc-link-tool", [("fv-form-delineated", ".archive-delineated"), ("!", ".cc")]) + [""]
      + ConstantLines("Translate", ["[-cc-compile-tool]", "-cc-compile-1", ".unix-cc-1", ".target"])
      + ConstantLines("Render", ["[-cc-link-tool]", "-cc-link-1", ".unix-cc-1", ".target"]))
  {
    var common := "# Alternatively, ..context.usr-cc.\n";
    var common := common + DefineText("-cc-compile-tool", [
      ("fv-form-delineated", ".cc-delineate"),
      ("!", ".cc")
    ]) + "\n";
    var common := common + DefineText("-cc-link-tool", [
      ("fv-form-delineated", ".archive-delineated"),
      ("!", ".cc")
    ]) + "\n";
    var common := common + Constant("Translate", [
      "[-cc-compile-tool]",
      "-cc-compile-1",
      ".unix-cc-1",
      ".target"
    ]);
    var common := common + Constant("Render", [
      "[-cc-link-tool]",
      "-cc-link-1",
      ".unix-cc-1",
      ".target"
    ]);
    assert "# Alternatively, ..context.usr-cc." + "\n" == "# Alternatively, ..context.usr-cc.\n";
    ToolDefinitionsIsLines("# Alternatively, ..context.usr-cc.",
      "-cc-compile-tool", [("fv-form-delineated", ".cc-delineate"), ("!", ".cc")],
      "-cc-link-tool", [("fv-form-delineated", ".archive-delineated"), ("!", ".cc")],
      ["[-cc-compile-tool]", "-cc-compile-1", ".unix-cc-1", ".target"],
      ["[-cc-link-tool]", "-cc-link-1", ".unix-cc-1", ".target"]);
    common
  }

  /** `form_text_type`: the text tool and the Translate and Render constants that use it. */
  function FormTextType(): (common: string)
    ensures common == Unlines(ToolTypeLines(
      "-text-tool", ".ft-text-cc", ["-parse-text-1", ".text-delineate-1"], ["-store-chapter-1", ".text-delineate-1"]))
  {
    var common := "";
    var common := common + Constant("-text-tool", [".ft-text-cc"]);
    assert common == Constant("-text-tool", [".ft-text-cc"]);
    var common := common + Constant("Translate", ["[-text-tool]", "-parse-text-1", ".text-delineate-1"]);
    var common := common + Constant("Render", ["[-text-tool]", "-store-chapter-1", ".text-delineate-1"]);
    assert common == Constant("-text-tool", [".ft-text-cc"])
      + Constant("Translate", ["[-text-tool]", "-parse-text-1", ".text-delineate-1"]) + Constant("Render", ["[-text-tool]", "-store-chapter-1", ".text-delineate-1"]);
    TextTypeParts();
    common
  }

  lemma TextTypeParts()
    ensures Constant("-text-tool", [".ft-text-cc"])
      + Constant("Translate", ["[-text-tool]", "-parse-text-1", ".text-delineate-1"]) + Constant("Render", ["[-text-tool]", "-store-chapter-1", ".text-delineate-1"])
      == Unlines(ToolTypeLines("-text-tool", ".ft-text-cc", ["-parse-text-1", ".text-delineate-1"], ["-store-chapter-1", ".text-delineate-1"]))
  {
    var tool := "-text-tool";
    var translate, render := ["-parse-text-1", ".text-delineate-1"], ["-store-chapter-1", ".text-delineate-1"];
    assert "[" + tool + "]" == "[-text-tool]";
    assert ["[" + tool + "]"] + translate == ["[-text-tool]", "-parse-text-1", ".text-delineate-1"];
    assert ["[" + tool + "]"] + render == ["[-text-tool]", "-store-chapter-1", ".text-delineate-1"];
    ToolTypeIsLines(tool, ".ft-text-cc", translate, render);
  }

  /** `form_python_type`: the Python compiler tool and the Translate and Render constants that use it. */
  function FormPythonType(): (common: string)
    ensures common == Unlines(ToolTypeLines(
      "-pyc-tool", ".ft-python-cc", ["-pyc-ast-1", ".fault-pyc-1"], ["-pyc-reduce-1", ".fault-pyc-1"]))
  {
    var common := "";
    var common := common + Constant("-pyc-tool", [".ft-python-cc"]);
    assert common == Constant("-pyc-tool", [".ft-python-cc"]);
    var common := common + Constant("Translate", ["[-pyc-tool]", "-pyc-ast-1", ".fault-pyc-1"]);
    var common := common + Constant("Render", ["[-pyc-tool]", "-pyc-reduce-1", ".fault-pyc-1"]);
    assert common == Constant("-pyc-tool", [".ft-python-cc"])
      + Constant("Translate", ["[-pyc-tool]", "-pyc-ast-1", ".fault-pyc-1"]) + Constant("Render", ["[-pyc-tool]", "-pyc-reduce-1", ".fault-pyc-1"]);
    PythonTypeParts();
    common
  }

  lemma PythonTypeParts()
    ensures Constant("-pyc-tool", [".ft-python-cc"])
      + Constant("Translate", ["[-pyc-tool]", "-pyc-ast-1", ".fault-pyc-1"]) + Constant("Render", ["[-pyc-tool]", "-pyc-reduce-1", ".fault-pyc-1"])
      == Unlines(ToolTypeLines("-pyc-tool", ".ft-python-cc", ["-pyc-ast-1", ".fault-pyc-1"], ["-pyc-reduce-1", ".fault-pyc-1"]))
  {
    var tool := "-pyc-tool";
    var translate, render := ["-pyc-ast-1", ".fault-pyc-1"], ["-pyc-reduce-1", ".fault-pyc-1"];
    assert "[" + tool + "]" == "[-pyc-tool]";
    assert ["[" + tool + "]"] + translate == ["[-pyc-tool]", "-pyc-ast-1", ".fault-pyc-1"];
    assert ["[" + tool + "]"] + render == ["[-pyc-tool]", "-pyc-reduce-1", ".fault-pyc-1"];
    ToolTypeIsLines(tool, ".ft-python-cc", translate, render);
  }

  /** The three records that define a tool and use it for Translate and Render: the tool's
      constant first, then Translate and Render, each leading with a reference to the tool. */
  function ToolTypeLines(tool: string, impl: string, translate: seq<string>, render: seq<string>): seq<string>
  {
    ConstantLines(tool, [impl])
      + ConstantLines("Translate", ["[" + tool + "]"] + translate)
      + ConstantLines("Render", ["[" + tool + "]"] + render)
  }

  lemma ToolTypeIsLines(tool: string, impl: string, translate: seq<string>, render: seq<string>)
    ensures Unlines(ToolTypeLines(tool, impl, translate, render))
      == Constant(tool, [impl])
       + Constant("Translate", ["[" + tool + "]"] + translate)
       + Constant("Render", ["[" + tool + "]"] + render)
  {
    var a, b, c := ConstantLines(tool, [impl]), ConstantLines("Translate", ["[" + tool + "]"] + translate),
                   ConstantLines("Render", ["[" + tool + "]"] + render);
    ConstantIsLines(tool, [impl]);
    ConstantIsLines("Translate", ["[" + tool + "]"] + translate);
    ConstantIsLines("Render", ["[" + tool + "]"] + render);
    UnlinesAppend(a, b);
    UnlinesAppend(a + b, c);
  }

  /** A comment line, two definitions each followed by a blank line, and the Translate and Render constants. */
  lemma ToolDefinitionsIsLines(c: string, n1: string, p1: seq<(string, string)>, n2: string, p2: seq<(string, string)>,
                               t: seq<string>, r: seq<string>)
    ensures c + "\n" + DefineText(n1, p1) + "\n" + DefineText(n2, p2) + "\n" + Constant("Translate", t) + Constant("Render", r)
      == Unlines([c] + DefinitionLines(n1, p1) + [""] + DefinitionLines(n2, p2) + [""]
                 + ConstantLines("Translate", t) + ConstantLines("Render", r))
  {
    DefineTextLines(n1, p1);
    DefineTextLines(n2, p2);
    ConstantIsLines("Translate", t);
    ConstantIsLines("Render", r);
    assert Unlines([c]) == c + "\n";
    FiveBlocks([c], DefinitionLines(n1, p1), DefinitionLines(n2, p2), ConstantLines("Translate", t), ConstantLines("Render", r));
  }

  /** Five blocks of lines, the middle two each followed by a blank line. */
  lemma FiveBlocks(c: seq<string>, d1: seq<string>, d2: seq<string>, t: seq<string>, r: seq<string>)
    ensures Unlines(c + d1 + [""] + d2 + [""] + t + r)
      == Unlines(c) + Unlines(d1) + "\n" + Unlines(d2) + "\n" + Unlines(t) + Unlines(r)
  {
    assert Unlines([""]) == "\n";
    UnlinesAppend(c, d1);
    UnlinesAppend(c + d1, [""]);
    UnlinesAppend(c + d1 + [""], d2);
    UnlinesAppend(c + d1 + [""] + d2, [""]);
    UnlinesAppend(c + d1 + [""] + d2 + [""], t);
    UnlinesAppend(c + d1 + [""] + d2 + [""] + t, r);
  }

  /** `system_select_linker`: the linker command interface for a system name. */
  function SystemSelectLinker(system: string): (r: string)
    ensures r == "[-apple-ld-macho]" <==> system == "darwin"
    ensures r == "[-gnu-ld-elf]" <==> system == "linux" || system == "openbsd"
    ensures r == "[-llvm-ld-elf]" <==> system != "darwin" && system != "linux" && system != "openbsd"
  {
    if system == "darwin" then "[-apple-ld-macho]"
    else if system in {"linux", "openbsd"} then "[-gnu-ld-elf]"
    else "[-llvm-ld-elf]"
  }

  /** The plan `system` serializes: no environment, and the path as both executable and argv[0]. */
  function SystemPlan(path: string, args: seq<string>): (t: Triple)
    ensures t.env == [] && t.exe == path
    ensures |t.argv| == |args| + 1 && t.argv[0] == path && t.argv[1..] == args
  {
    var xargs := [path];
    var xargs := xargs + args;
    Triple([], path, xargs)
  }

  /** `system`: the serialized plan that runs `path` with `args`. */
  function System(serialize: Serializer, path: string, args: seq<string>): (r: string)
    ensures r == serialize(Triple([], path, [path] + args))
  {
    serialize(SystemPlan(path, args))
  }

  /** A sole factor: its path, its type as a factor path, and its source. */
  datatype Sole<P> = Sole(path: string, factorType: P, source: string)

  /** `mksole`: the type name is resolved to a factor path by `typePath`. */
  function MkSole<P>(fpath: string, typeName: string, source: string, typePath: string -> P): (s: Sole<P>)
    ensures s.path == fpath && s.factorType == typePath(typeName) && s.source == source
  {
    Sole(fpath, typePath(typeName), source)
  }

  /** `mkset`: its four arguments, unchanged and in order. */
  function MkSet(fpath: string, factorType: string, symbols: seq<string>, sources: seq<string>)
    : (r: (string, string, seq<string>, seq<string>))
    ensures r.0 == fpath && r.1 == factorType && r.2 == symbols && r.3 == sources
  {
    (fpath, factorType, symbols, sources)
  }
}
