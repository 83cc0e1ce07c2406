/** The journal record: what it names, and the history of states it may hold. */
module JournalRecords {

  datatype State = Planned | Applying | Applied | Validated | RollingBack | RolledBack | Failed

  function Allowed(s: State): set<State> {
    match s
    case Planned => {Applying, Failed}
    case Applying => {Applied, RollingBack, Failed}
    case Applied => {Validated, RollingBack, Failed}
    case Validated => {RollingBack}
    case RollingBack => {RolledBack, Failed}
    case RolledBack => {}
    case Failed => {RollingBack}
  }

  datatype ResourceRecord = ResourceRecord(id: string, target: string, prior: string, desired: string)

  /** The part of a record that never changes. */
  datatype Identity = Identity(installId: string, planId: string, planHash: string, resources: seq<ResourceRecord>)

  datatype JournalRecord = JournalRecord(identity: Identity, transitions: seq<State>)

  const MAX_RESOURCES := 512
  const MAX_TRANSITIONS := 4096

  /** Code-point order on strings. */
  predicate Below(a: string, b: string) {
    if b == "" then false
    else if a == "" then true
    else if a[0] != b[0] then a[0] < b[0]
    else Below(a[1..], b[1..])
  }

  predicate ValidIdentity(i: Identity) {
    && 1 <= |i.resources| <= MAX_RESOURCES
    && forall k :: 0 < k < |i.resources| ==> Below(i.resources[k - 1].id, i.resources[k].id)
  }

  predicate ValidHistory(h: seq<State>) {
    && 1 <= |h| <= MAX_TRANSITIONS
    && h[0] == Planned
    && forall k :: 0 < k < |h| ==> h[k] in Allowed(h[k - 1])
  }

  predicate ValidRecord(r: JournalRecord) {
    ValidIdentity(r.identity) && ValidHistory(r.transitions)
  }

  function Last(h: seq<State>): State
    requires h != []
  {
    h[|h| - 1]
  }

  function Advance(r: JournalRecord, s: State): JournalRecord {
    r.(transitions := r.transitions + [s])
  }

  predicate Forward(s: State) {
    s.Planned? || s.Applying? || s.Applied? || s.Validated?
  }

  /**
   * The forward states can occur only in their own positions, what follows them alternates between failed and
   * rolling back, and nothing follows rolled back.
   */
  lemma {:induction false} HistoryShape(h: seq<State>, k: nat)
    requires ValidHistory(h) && k < |h|
    ensures h[k].Planned? <==> k == 0
    ensures h[k].Applying? ==> k == 1
    ensures h[k].Applied? ==> k == 2
    ensures h[k].Validated? ==> k == 3
    ensures Forward(h[k]) ==> forall j :: 0 <= j < k ==> Forward(h[j])
    ensures !Forward(h[k]) && k + 1 < |h| ==>
              (h[k].Failed? && h[k + 1].RollingBack?)
              || (h[k].RollingBack? && (h[k + 1].Failed? || h[k + 1].RolledBack?))
    ensures h[k].RolledBack? ==> k == |h| - 1
  {
    if k + 1 < |h| {
      assert h[k + 1] in Allowed(h[k]);
    }
    if k > 0 {
      HistoryShape(h, k - 1);
      assert h[k] in Allowed(h[k - 1]);
    }
  }

  /** A valid history extended by an allowed state stays valid up to the length limit. */
  lemma AdvanceValid(r: JournalRecord, s: State)
    requires ValidRecord(r) && s in Allowed(Last(r.transitions))
    ensures ValidRecord(Advance(r, s)) <==> |r.transitions| < MAX_TRANSITIONS
  {
    var h := r.transitions + [s];
    forall k | 0 < k < |h| ensures h[k] in Allowed(h[k - 1]) {
      if k < |r.transitions| {
        assert h[k] == r.transitions[k] && h[k - 1] == r.transitions[k - 1];
      }
    }
  }
}
