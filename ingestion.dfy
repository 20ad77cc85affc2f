// Turning the input into queued flow files. With no input directory,
// whatever standard input has available becomes at most one flow file.
// With an input directory, the tree walk visits file after file; every
// regular file becomes one flow file whose attributes are the base
// attributes with "filename" set to the file's name. The walk shares one
// attribute map for all files, so "filename" overrides a base attribute of
// that name. An I/O error ends the walk: the files visited before it stay
// queued.

module Ingestion {
  import opened Wrappers
  import opened FlowFiles

  /** The attribute that carries the file's name. */
  const FILENAME := "filename"

  /** One call of the tree walk's visitor: a file with its base name, whether
      it is a regular file and its bytes (None when reading them fails), or
      a file the walk could not visit at all. */
  datatype Visit =
    | VisitFile(name: string, regular: bool, bytes: Option<seq<byte>>)
    | VisitFailed(name: string)

  /** What is handed to enqueue: content and attributes. */
  datatype Payload = Payload(content: seq<byte>, attributes: map<string, string>)

  /** A visit that throws: a failed visit, or a regular file that cannot be read. */
  predicate Aborts(v: Visit)
  {
    v.VisitFailed? || (v.regular && v.bytes.None?)
  }

  /** Standard-input mode: one flow file when bytes are available, none otherwise. */
  function StdinPayloads(available: int, data: seq<byte>, base: map<string, string>): (r: seq<Payload>)
    ensures |r| == (if available > 0 then 1 else 0)
    ensures forall p :: p in r ==> p == Payload(data, base)
  {
    if available > 0 then [Payload(data, base)] else []
  }

  /** Directory mode: the payloads the walk enqueues, in visiting order, up
      to the first visit that throws. */
  function Admitted(visits: seq<Visit>, base: map<string, string>): seq<Payload>
  {
    if visits == [] then []
    else
      match visits[0]
      case VisitFailed(_) => []
      case VisitFile(name, regular, bytes) =>
        if !regular then Admitted(visits[1..], base)
        else if bytes.None? then []
        else [Payload(bytes.value, base[FILENAME := name])] + Admitted(visits[1..], base)
  }

  /** The number of regular files among the visits. */
  function CountRegular(visits: seq<Visit>): nat
  {
    if visits == [] then 0
    else (if visits[0].VisitFile? && visits[0].regular then 1 else 0) + CountRegular(visits[1..])
  }

  /** Payloads numbered as flow files, from a first identifier on. */
  function AsFlowFiles(ps: seq<Payload>, firstId: nat): (r: seq<FlowFile>)
    ensures |r| == |ps|
    ensures forall i :: 0 <= i < |ps| ==> r[i] == FlowFile(firstId + i, ps[i].content, ps[i].attributes)
  {
    seq(|ps|, i requires 0 <= i < |ps| => FlowFile(firstId + i, ps[i].content, ps[i].attributes))
  }

  /** Numbering two runs of payloads one after the other numbers the second
      from where the first stopped. */
  lemma AsFlowFilesAppend(a: seq<Payload>, b: seq<Payload>, firstId: nat)
    ensures AsFlowFiles(a + b, firstId) == AsFlowFiles(a, firstId) + AsFlowFiles(b, firstId + |a|)
  {
    var whole := AsFlowFiles(a + b, firstId);
    var parts := AsFlowFiles(a, firstId) + AsFlowFiles(b, firstId + |a|);
    assert |whole| == |parts|;
    forall i | 0 <= i < |whole|
      ensures whole[i] == parts[i]
    {
      if i >= |a| {
        assert (a + b)[i] == b[i - |a|];
      }
    }
  }

  /** The walk queues at most one flow file per regular file, each named. */
  lemma {:induction false} AdmittedAtMostRegular(visits: seq<Visit>, base: map<string, string>)
    ensures |Admitted(visits, base)| <= CountRegular(visits)
    ensures forall p :: p in Admitted(visits, base) ==> FILENAME in p.attributes
  {
    if visits != [] {
      AdmittedAtMostRegular(visits[1..], base);
    }
  }

  /** When no visit throws, there is exactly one flow file per regular file. */
  lemma {:induction false} AdmittedCountsRegularFiles(visits: seq<Visit>, base: map<string, string>)
    requires forall i :: 0 <= i < |visits| ==> !Aborts(visits[i])
    ensures |Admitted(visits, base)| == CountRegular(visits)
  {
    if visits != [] {
      assert !Aborts(visits[0]);
      AdmittedCountsRegularFiles(visits[1..], base);
    }
  }

  /** Every queued payload comes from a regular file that was visited and
      read: it carries that file's bytes, and its attributes are the base
      attributes with "filename" set to that file's name. */
  lemma {:induction false} AdmittedFromVisitedFiles(visits: seq<Visit>, base: map<string, string>)
    ensures forall p :: p in Admitted(visits, base) ==>
              exists i :: 0 <= i < |visits| && visits[i].VisitFile? && visits[i].regular &&
                          visits[i].bytes == Some(p.content) && p.attributes == base[FILENAME := visits[i].name]
  {
    if visits != [] && visits[0].VisitFile? {
      AdmittedFromVisitedFiles(visits[1..], base);
      forall p | p in Admitted(visits, base)
        ensures exists i :: 0 <= i < |visits| && visits[i].VisitFile? && visits[i].regular &&
                            visits[i].bytes == Some(p.content) && p.attributes == base[FILENAME := visits[i].name]
      {
        if p in Admitted(visits[1..], base) {
          var i :| 0 <= i < |visits[1..]| && visits[1..][i].VisitFile? && visits[1..][i].regular &&
                   visits[1..][i].bytes == Some(p.content) && p.attributes == base[FILENAME := visits[1..][i].name];
          assert visits[i + 1] == visits[1..][i];
        } else {
          assert visits[0].bytes == Some(p.content);
        }
      }
    }
  }

  /** "filename" overrides a base attribute of that name; every other base
      attribute is kept, and no other attribute is added. */
  lemma FilenameOverridesBase(visits: seq<Visit>, base: map<string, string>, p: Payload)
    requires p in Admitted(visits, base)
    ensures FILENAME in p.attributes
    ensures p.attributes.Keys == base.Keys + {FILENAME}
    ensures forall k :: k in base && k != FILENAME ==> p.attributes[k] == base[k]
  {
    AdmittedFromVisitedFiles(visits, base);
  }

  /** When no visit throws, every regular file is queued with its bytes and
      its name. */
  lemma {:induction false} EveryRegularFileAdmitted(visits: seq<Visit>, base: map<string, string>, i: nat)
    requires forall j :: 0 <= j < |visits| ==> !Aborts(visits[j])
    requires i < |visits| && visits[i].VisitFile? && visits[i].regular
    ensures visits[i].bytes.Some?
    ensures Payload(visits[i].bytes.value, base[FILENAME := visits[i].name]) in Admitted(visits, base)
  {
    assert !Aborts(visits[0]);
    if i > 0 {
      assert visits[1..][i - 1] == visits[i];
      EveryRegularFileAdmitted(visits[1..], base, i - 1);
    }
  }

  /** The walk ends at the first visit that throws: nothing visited after it
      is queued. */
  lemma {:induction false} WalkStopsAtFailure(before: seq<Visit>, failing: Visit, after: seq<Visit>, base: map<string, string>)
    requires forall i :: 0 <= i < |before| ==> !Aborts(before[i])
    requires Aborts(failing)
    ensures Admitted(before + [failing] + after, base) == Admitted(before, base)
  {
    var all := before + [failing] + after;
    if before == [] {
      assert all[0] == failing;
    } else {
      assert !Aborts(before[0]);
      assert all[0] == before[0];
      assert all[1..] == before[1..] + [failing] + after;
      WalkStopsAtFailure(before[1..], failing, after, base);
    }
  }
}
