/**
 * Initialization of the host's execution platform (host/execution.py): a
 * native plan, a Python plan and the two-line priority record, written into
 * a platform directory.
 *
 * The host identity (`identity.root_execution_context`,
 * `identity.python_execution_context`) and the Python tool lookup
 * (`query.tool('python')`) are foreign calls and enter as parameters.
 */
module HostExecution {
  import opened Text
  import opened Plans
  import opened Records
  import opened Vector

  /** `native`: the architecture's plan record, initialised to no bytes. */
  method Native(architecture: string, path: Directory)
    modifies path
    ensures path.records == old(path.records)[PlanRecord(architecture) := []]
    ensures path.collections == old(path.collections) + {P_RECORD}
  {
    path.Init(P_RECORD, PlanRecord(architecture), []);
  }

  /** `python`: the Python tool's plan, with `-d` appended to the tool's own argument
      list, serialized into the architecture's plan record. */
  method Python(architecture: string, path: Directory, env: seq<(string, string)>, exePath: string,
                xargv: StringList, serialize: Serializer, enc: Encoder)
    modifies path, xargv
    ensures xargv.items == old(xargv.items) + ["-d"]
    ensures path.records == old(path.records)
      [PlanRecord(architecture) := enc(serialize(Triple(env, exePath, old(xargv.items) + ["-d"])))]
    ensures path.collections == old(path.collections) + {P_RECORD}
  {
    xargv.Append("-d");
    var splan := serialize(Triple(env, exePath, xargv.items));
    path.Init(P_RECORD, PlanRecord(architecture), enc(splan));
  }

  /** The priority record: exactly the host line, then the Python line, each closed by a newline. */
  function PriorityText(host: string, python: string): (r: string)
    ensures r == host + " system\n" + python + " python\n"
  {
    var hostsym := Join([host, "system"], " ");
    var pythonsym := Join([python, "python"], " ");
    JoinPair(host, "system", " ");
    JoinPair(python, "python", " ");
    JoinPair(hostsym, pythonsym, "\n");
    Join([hostsym, pythonsym], "\n") + "\n"
  }

  /** `priority`: write the priority record. */
  method Priority(host: string, python: string, path: Directory, enc: Encoder)
    modifies path
    ensures path.records == old(path.records)[A_RECORD := enc(PriorityText(host, python))]
    ensures path.collections == old(path.collections)
  {
    path.Store(A_RECORD, enc(PriorityText(host, python)));
  }

  /** Read back, the priority record gives the host id and then the Python id, each with its
      symbol, and a final empty field after the trailing newline. */
  lemma PriorityReadBack(host: string, python: string)
    requires Field(host) && Field(python)
    ensures var ls := Lines(PriorityText(host, python));
      && ls == [host + " system", python + " python", ""]
      && Split(ls[0], ' ') == [host, "system"]
      && Split(ls[1], ' ') == [python, "python"]
  {
    var h, p := host + " system", python + " python";
    assert [h, p][1..] == [p] && [p][1..] == [];
    assert Unlines([p]) == p + "\n" + Unlines([]);
    assert Unlines([h, p]) == h + "\n" + Unlines([p]);
    assert Unlines([h, p]) == h + "\n" + (p + "\n");
    assert h + "\n" == host + " system\n" by { assert " system" + "\n" == " system\n"; }
    assert p + "\n" == python + " python\n" by { assert " python" + "\n" == " python\n"; }
    assert PriorityText(host, python) == Unlines([h, p]);
    JoinPair(host, "system", [' ']);
    JoinPair(python, "python", [' ']);
    assert Join([host, "system"], [' ']) == h;
    assert Join([python, "python"], [' ']) == p;
    assert Free([h, p], '\n');
    LinesOfUnlines([h, p]);
    SplitJoin([host, "system"], ' ');
    SplitJoin([python, "python"], ' ');
  }

  /** The records after `initialize`, in the order it writes them. */
  function InitialRecords(records: map<string, Bytes>, system: string, architecture: string,
                          pythonArchitecture: string, pythonPlan: Triple,
                          serialize: Serializer, enc: Encoder): map<string, Bytes>
  {
    records
      [S_RECORD := enc(system)]
      [A_RECORD := []]
      [PlanRecord(architecture) := []]
      [PlanRecord(pythonArchitecture) := enc(serialize(pythonPlan))]
      [A_RECORD := enc(PriorityText(architecture, pythonArchitecture))]
  }

  /** `initialize`: system record, native plan, Python plan, priority record. */
  method Initialize(target: Directory, system: string, architecture: string, pythonArchitecture: string,
                    toolEnv: seq<(string, string)>, toolExe: string, toolArgv: StringList,
                    serialize: Serializer, enc: Encoder)
    modifies target, toolArgv
    ensures target.records == InitialRecords(old(target.records), system, architecture, pythonArchitecture,
      Triple(toolEnv, toolExe, old(toolArgv.items) + ["-d"]), serialize, enc)
    ensures target.collections == old(target.collections) + {P_RECORD}
    ensures toolArgv.items == old(toolArgv.items) + ["-d"]
  {
    var _ := FsInitialize(target, system, enc);
    Native(architecture, target);
    Python(pythonArchitecture, target, toolEnv, toolExe, toolArgv, serialize, enc);
    Priority(architecture, pythonArchitecture, target, enc);
  }

  /** After `initialize` both ids named in the priority record, host then Python, have plan
      records: the Python plan under its id, and no bytes under the host id when the two differ. */
  lemma InitializedRegistryConsistent(records: map<string, Bytes>, system: string, architecture: string,
                                      pythonArchitecture: string, pythonPlan: Triple,
                                      serialize: Serializer, enc: Encoder)
    requires Field(architecture) && Field(pythonArchitecture)
    ensures var u := InitialRecords(records, system, architecture, pythonArchitecture, pythonPlan, serialize, enc);
      var ls := Lines(PriorityText(architecture, pythonArchitecture));
      && S_RECORD in u && u[S_RECORD] == enc(system)
      && A_RECORD in u && u[A_RECORD] == enc(PriorityText(architecture, pythonArchitecture))
      && ls == [architecture + " system", pythonArchitecture + " python", ""]
      && Split(ls[0], ' ')[0] == architecture && Split(ls[1], ' ')[0] == pythonArchitecture
      && PlanRecord(architecture) in u && PlanRecord(pythonArchitecture) in u
      && u[PlanRecord(pythonArchitecture)] == enc(serialize(pythonPlan))
      && (architecture != pythonArchitecture ==> u[PlanRecord(architecture)] == [])
  {
    PlanRecordApart(architecture);
    PlanRecordApart(pythonArchitecture);
    PriorityReadBack(architecture, pythonArchitecture);
    if architecture != pythonArchitecture {
      if PlanRecord(architecture) == PlanRecord(pythonArchitecture) {
        PlanRecordInjective(architecture, pythonArchitecture);
      }
    }
  }
}
