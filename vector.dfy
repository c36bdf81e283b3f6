/**
 * Persistence of an execution platform into a directory of records
 * (vector.py): the `system` record, the `architectures` priority record and
 * one `plans/<architecture>` record per architecture.
 */
module Vector {
  import opened Text
  import opened Plans
  import opened Records

  const A_RECORD := "architectures"
  const S_RECORD := "system"
  const P_RECORD := "plans"

  /** The record holding the serialized plan of architecture `aid`. */
  function PlanRecord(aid: string): string
  {
    P_RECORD + "/" + aid
  }

  /** One platform section: an architecture id, its synonym list (a list the
      caller owns and that is changed in place) and its plan. */
  datatype Section = Section(aid: string, synonyms: StringList, plan: Triple)

  function Lists(sections: seq<Section>): set<StringList>
  {
    set k | 0 <= k < |sections| :: sections[k].synonyms
  }

  /** The synonym lists' contents, section by section. */
  function Snapshot(sections: seq<Section>): (snap: seq<seq<string>>)
    reads Lists(sections)
    ensures |snap| == |sections|
    ensures forall k | 0 <= k < |sections| :: snap[k] == sections[k].synonyms.items
  {
    seq(|sections|, k requires 0 <= k < |sections| reads Lists(sections) => sections[k].synonyms.items)
  }

  /** The contents of section `k`'s synonym list once the first `n` sections
      have been processed: every processed section that shares the list has put
      its id in front. `snap` holds the contents before the first section. */
  function SynonymsAfter(sections: seq<Section>, snap: seq<seq<string>>, n: nat, k: nat): seq<string>
    requires n <= |sections| && k < |sections| == |snap|
  {
    if n == 0 then snap[k]
    else if sections[n - 1].synonyms == sections[k].synonyms then
      [sections[n - 1].aid] + SynonymsAfter(sections, snap, n - 1, k)
    else SynonymsAfter(sections, snap, n - 1, k)
  }

  /** The priority line of section `k`: its list, just after its own id went in front, joined by spaces. */
  function ArchitectureLine(sections: seq<Section>, snap: seq<seq<string>>, k: nat): string
    requires k < |sections| == |snap|
  {
    Join(SynonymsAfter(sections, snap, k + 1, k), " ")
  }

  function ArchitectureLines(sections: seq<Section>, snap: seq<seq<string>>, n: nat): (ls: seq<string>)
    requires n <= |sections| == |snap|
    ensures |ls| == n
    ensures forall k | 0 <= k < n :: ls[k] == ArchitectureLine(sections, snap, k)
  {
    seq(n, k requires 0 <= k < n => ArchitectureLine(sections, snap, k))
  }

  lemma LinesGrow(sections: seq<Section>, snap: seq<seq<string>>, n: nat)
    requires n < |sections| == |snap|
    ensures ArchitectureLines(sections, snap, n + 1)
      == ArchitectureLines(sections, snap, n) + [Join(SynonymsAfter(sections, snap, n + 1, n), " ")]
  {
  }

  /** The records after the plans of the first `n` sections are stored, in order. */
  function PlanWrites(records: map<string, Bytes>, sections: seq<Section>, n: nat,
                      serialize: Serializer, enc: Encoder): map<string, Bytes>
    requires n <= |sections|
  {
    if n == 0 then records
    else PlanWrites(records, sections, n - 1, serialize, enc)
           [PlanRecord(sections[n - 1].aid) := enc(serialize(sections[n - 1].plan))]
  }

  /** The records after `fs_update_sections`. */
  function SectionsStored(records: map<string, Bytes>, sections: seq<Section>, snap: seq<seq<string>>,
                          serialize: Serializer, enc: Encoder): map<string, Bytes>
    requires |sections| == |snap|
  {
    PlanWrites(records, sections, |sections|, serialize, enc)
      [A_RECORD := enc(Join(ArchitectureLines(sections, snap, |sections|), "\n"))]
  }

  /** `fs_initialize`: the system record, an empty plans collection and an empty priority record. */
  method FsInitialize(target: Directory, system: string, enc: Encoder) returns (r: Directory)
    modifies target
    ensures r == target
    ensures target.records == old(target.records)[S_RECORD := enc(system)][A_RECORD := []]
    ensures target.collections == old(target.collections) + {P_RECORD}
  {
    target.Store(S_RECORD, enc(Join([system], " ")));
    target.MakeCollection(P_RECORD);
    target.Store(A_RECORD, []);
    r := target;
  }

  /** `fs_update_sections`: store each section's plan under its id, put the id
      in front of the section's synonym list, and write the priority record. */
  method FsUpdateSections(target: Directory, sections: seq<Section>, serialize: Serializer, enc: Encoder)
    modifies target, Lists(sections)
    ensures target.records == SectionsStored(old(target.records), sections, old(Snapshot(sections)), serialize, enc)
    ensures target.collections == old(target.collections)
    ensures forall k | 0 <= k < |sections| ::
      sections[k].synonyms.items == SynonymsAfter(sections, old(Snapshot(sections)), |sections|, k)
  {
    ghost var snap := Snapshot(sections);
    var archs: seq<string> := [];
    for i := 0 to |sections|
      invariant forall k | 0 <= k < |sections| :: sections[k].synonyms.items == SynonymsAfter(sections, snap, i, k)
      invariant archs == ArchitectureLines(sections, snap, i)
      invariant target.records == PlanWrites(old(target.records), sections, i, serialize, enc)
      invariant target.collections == old(target.collections)
    {
      var Section(aid, syns, plan) := sections[i];
      var sxp := enc(serialize(plan));
      target.Store(PlanRecord(aid), sxp);
      label before:
      syns.InsertFirst(aid);
      forall k | 0 <= k < |sections|
        ensures sections[k].synonyms.items == SynonymsAfter(sections, snap, i + 1, k)
      {
        if sections[k].synonyms != syns {
          assert sections[k].synonyms.items == old@before(sections[k].synonyms.items);
        }
      }
      LinesGrow(sections, snap, i);
      archs := archs + [Join(syns.items, " ")];
    }
    target.Store(A_RECORD, enc(Join(archs, "\n")));
  }

  /** The records after `fs_update`. */
  function UpdatedRecords(records: map<string, Bytes>, system: string, sections: seq<Section>,
                          snap: seq<seq<string>>, serialize: Serializer, enc: Encoder): map<string, Bytes>
    requires |sections| == |snap|
  {
    SectionsStored(records[S_RECORD := enc(system)], sections, snap, serialize, enc)
  }

  /** `fs_update`: the platform's system record, then its sections. */
  method FsUpdate(target: Directory, system: string, sections: seq<Section>, serialize: Serializer, enc: Encoder)
    modifies target, Lists(sections)
    ensures target.records == UpdatedRecords(old(target.records), system, sections, old(Snapshot(sections)), serialize, enc)
    ensures target.collections == old(target.collections)
    ensures forall k | 0 <= k < |sections| ::
      sections[k].synonyms.items == SynonymsAfter(sections, old(Snapshot(sections)), |sections|, k)
  {
    target.Store(S_RECORD, enc(system));
    FsUpdateSections(target, sections, serialize, enc);
  }

  /** No two sections share a synonym list (the usual case: one fresh list per section). */
  predicate DistinctLists(sections: seq<Section>)
  {
    forall i, j | 0 <= i < j < |sections| :: sections[i].synonyms != sections[j].synonyms
  }

  /** Neither a space nor a newline: a field of the priority record. */
  predicate Field(s: string)
  {
    ' ' !in s && '\n' !in s
  }

  /** With one list per section, every list gains exactly its own id, in front. */
  lemma {:induction false} DistinctListsGetOwnId(sections: seq<Section>, snap: seq<seq<string>>, n: nat, k: nat)
    requires DistinctLists(sections)
    requires n <= |sections| && k < |sections| == |snap|
    ensures SynonymsAfter(sections, snap, n, k) == if k < n then [sections[k].aid] + snap[k] else snap[k]
    decreases n
  {
    if n > 0 {
      DistinctListsGetOwnId(sections, snap, n - 1, k);
    }
  }

  /** Whatever lists the sections share, the first field of each priority line is that section's id. */
  lemma LineStartsWithId(sections: seq<Section>, snap: seq<seq<string>>, k: nat)
    requires k < |sections| == |snap| && ' ' !in sections[k].aid
    ensures Split(ArchitectureLine(sections, snap, k), ' ')[0] == sections[k].aid
  {
    SplitJoinHead(SynonymsAfter(sections, snap, k + 1, k), ' ');
  }

  /** Every synonym a list holds after processing is some processed section's id or one of its original synonyms. */
  lemma {:induction false} SynonymsAfterFrom(sections: seq<Section>, snap: seq<seq<string>>, n: nat, k: nat, s: string)
    requires n <= |sections| && k < |sections| == |snap|
    requires s in SynonymsAfter(sections, snap, n, k)
    ensures s in snap[k] || exists j | 0 <= j < n :: s == sections[j].aid
    decreases n
  {
    if n > 0 {
      if sections[n - 1].synonyms == sections[k].synonyms && s != sections[n - 1].aid {
        SynonymsAfterFrom(sections, snap, n - 1, k, s);
      } else if sections[n - 1].synonyms != sections[k].synonyms {
        SynonymsAfterFrom(sections, snap, n - 1, k, s);
      }
    }
  }

  /** The priority record reads back line by line, field by field, whatever lists the sections
      share: one line per section in input order, each holding the fields of that section's list
      just after its own id went in front; no sections give an empty record. */
  lemma ArchitecturesReadBack(sections: seq<Section>, snap: seq<seq<string>>)
    requires |sections| == |snap|
    requires forall k | 0 <= k < |sections| :: Field(sections[k].aid) && forall s | s in snap[k] :: Field(s)
    ensures var text := Join(ArchitectureLines(sections, snap, |sections|), "\n");
      && (|sections| == 0 ==> text == "")
      && (|sections| > 0 ==>
            && |Lines(text)| == |sections|
            && forall k | 0 <= k < |sections| ::
                 Split(Lines(text)[k], ' ') == SynonymsAfter(sections, snap, k + 1, k))
  {
    var lines := ArchitectureLines(sections, snap, |sections|);
    forall k | 0 <= k < |sections|
      ensures '\n' !in lines[k] && Split(lines[k], ' ') == SynonymsAfter(sections, snap, k + 1, k)
    {
      var fields := SynonymsAfter(sections, snap, k + 1, k);
      forall i | 0 <= i < |fields| ensures Field(fields[i]) {
        SynonymsAfterFrom(sections, snap, k + 1, k, fields[i]);
      }
      assert fields == [sections[k].aid] + SynonymsAfter(sections, snap, k, k);
      JoinFree(fields, " ", '\n');
      SplitJoin(fields, ' ');
    }
    if |sections| > 0 {
      SplitJoin(lines, '\n');
    }
  }

  /** With one list per section, each line reads back as the section's id followed by the
      synonyms its list held before. */
  lemma ArchitecturesReadBackDistinct(sections: seq<Section>, snap: seq<seq<string>>)
    requires |sections| == |snap| && DistinctLists(sections)
    requires forall k | 0 <= k < |sections| :: Field(sections[k].aid) && forall s | s in snap[k] :: Field(s)
    ensures var text := Join(ArchitectureLines(sections, snap, |sections|), "\n");
      |sections| > 0 ==>
        && |Lines(text)| == |sections|
        && forall k | 0 <= k < |sections| :: Split(Lines(text)[k], ' ') == [sections[k].aid] + snap[k]
  {
    ArchitecturesReadBack(sections, snap);
    forall k | 0 <= k < |sections| ensures SynonymsAfter(sections, snap, k + 1, k) == [sections[k].aid] + snap[k] {
      DistinctListsGetOwnId(sections, snap, k + 1, k);
    }
  }

  lemma PlanRecordInjective(a: string, b: string)
    requires PlanRecord(a) == PlanRecord(b)
    ensures a == b
  {
    assert a == PlanRecord(a)[|P_RECORD| + 1..];
    assert b == PlanRecord(b)[|P_RECORD| + 1..];
  }

  /** Plan records live under `plans/`, apart from the system and priority records. */
  lemma PlanRecordApart(aid: string)
    ensures PlanRecord(aid) != S_RECORD && PlanRecord(aid) != A_RECORD
  {
    assert PlanRecord(aid)[0] == 'p';
  }

  /** Every stored section has its plan record. */
  lemma {:induction false} PlanWritesCover(records: map<string, Bytes>, sections: seq<Section>, n: nat,
                                           serialize: Serializer, enc: Encoder)
    requires n <= |sections|
    ensures forall k | 0 <= k < n :: PlanRecord(sections[k].aid) in PlanWrites(records, sections, n, serialize, enc)
    decreases n
  {
    if n > 0 {
      PlanWritesCover(records, sections, n - 1, serialize, enc);
    }
  }

  /** A plan record holds the serialized plan of the last section with that id. */
  lemma {:induction false} PlanWritesLast(records: map<string, Bytes>, sections: seq<Section>, n: nat, k: nat,
                                          serialize: Serializer, enc: Encoder)
    requires k < n <= |sections|
    requires forall j | k < j < n :: sections[j].aid != sections[k].aid
    ensures PlanRecord(sections[k].aid) in PlanWrites(records, sections, n, serialize, enc)
    ensures PlanWrites(records, sections, n, serialize, enc)[PlanRecord(sections[k].aid)]
      == enc(serialize(sections[k].plan))
    decreases n
  {
    if k < n - 1 {
      if PlanRecord(sections[n - 1].aid) == PlanRecord(sections[k].aid) {
        PlanRecordInjective(sections[n - 1].aid, sections[k].aid);
      }
      PlanWritesLast(records, sections, n - 1, k, serialize, enc);
    }
  }

  /** Storing plans leaves every other record as it was. */
  lemma {:induction false} PlanWritesFrame(records: map<string, Bytes>, sections: seq<Section>, n: nat,
                                           serialize: Serializer, enc: Encoder, key: string)
    requires n <= |sections|
    requires forall j | 0 <= j < n :: key != PlanRecord(sections[j].aid)
    ensures (key in PlanWrites(records, sections, n, serialize, enc)) == (key in records)
    ensures key in records ==> PlanWrites(records, sections, n, serialize, enc)[key] == records[key]
    decreases n
  {
    if n > 0 {
      PlanWritesFrame(records, sections, n - 1, serialize, enc, key);
    }
  }

  /** `fs_update` writes nothing but the system record, the priority record and the sections' plan records. */
  lemma UpdateWritesOnlyPlatformRecords(records: map<string, Bytes>, system: string, sections: seq<Section>,
                                        snap: seq<seq<string>>, serialize: Serializer, enc: Encoder, key: string)
    requires |sections| == |snap|
    requires key != S_RECORD && key != A_RECORD
    requires forall j | 0 <= j < |sections| :: key != PlanRecord(sections[j].aid)
    ensures var u := UpdatedRecords(records, system, sections, snap, serialize, enc);
      && (key in u <==> key in records)
      && (key in records ==> u[key] == records[key])
  {
    PlanWritesFrame(records[S_RECORD := enc(system)], sections, |sections|, serialize, enc, key);
  }

  /** After `fs_update` the registry is consistent: the system record holds the system, the
      priority record the joined lines, every listed id has a plan record, and an id listed
      once holds its own section's plan. */
  lemma UpdatedRegistryConsistent(records: map<string, Bytes>, system: string, sections: seq<Section>,
                                  snap: seq<seq<string>>, serialize: Serializer, enc: Encoder)
    requires |sections| == |snap|
    ensures var u := UpdatedRecords(records, system, sections, snap, serialize, enc);
      && S_RECORD in u && u[S_RECORD] == enc(system)
      && A_RECORD in u && u[A_RECORD] == enc(Join(ArchitectureLines(sections, snap, |sections|), "\n"))
      && (forall k | 0 <= k < |sections| :: PlanRecord(sections[k].aid) in u)
      && (forall k | 0 <= k < |sections| && (forall j | k < j < |sections| :: sections[j].aid != sections[k].aid) ::
            PlanRecord(sections[k].aid) in u && u[PlanRecord(sections[k].aid)] == enc(serialize(sections[k].plan)))
  {
    var r0 := records[S_RECORD := enc(system)];
    forall j | 0 <= j < |sections| ensures S_RECORD != PlanRecord(sections[j].aid) {
      PlanRecordApart(sections[j].aid);
    }
    PlanWritesFrame(r0, sections, |sections|, serialize, enc, S_RECORD);
    PlanWritesCover(r0, sections, |sections|, serialize, enc);
    forall k | 0 <= k < |sections| && (forall j | k < j < |sections| :: sections[j].aid != sections[k].aid)
      ensures var u := UpdatedRecords(records, system, sections, snap, serialize, enc);
        PlanRecord(sections[k].aid) in u && u[PlanRecord(sections[k].aid)] == enc(serialize(sections[k].plan))
    {
      PlanRecordApart(sections[k].aid);
      PlanWritesLast(r0, sections, |sections|, k, serialize, enc);
    }
  }
}
