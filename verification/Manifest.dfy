/** The append-only manifest, newest entry last, filtered by role and by kind. */
module Manifest {
  import opened Wrappers
  import opened Roles

  type Digest = string

  datatype Entry =
    | Model(role: Role, name: Name, sha: Digest, bytes: nat)
    | Meta(role: Role, attempt: nat, sha: Digest, bytes: nat)
    | Raw(role: Role, attempt: nat, sha: Digest, bytes: nat, truncated: bool, storedBytes: nat, observed: nat)

  datatype Entries = Blank | Append(past: Entries, last: Entry)

  /** Which invocation file an entry is about. */
  datatype Slot = Slot(attempt: nat, raw: bool)

  function SlotOf(e: Entry): Slot
    requires !e.Model?
  {
    Slot(e.attempt, e.Raw?)
  }

  function Of(m: Entries, role: Role): Entries {
    match m
    case Blank => Blank
    case Append(past, e) => if e.role == role then Append(Of(past, role), e) else Of(past, role)
  }

  function Models(m: Entries): Entries {
    match m
    case Blank => Blank
    case Append(past, e) => if e.Model? then Append(Models(past), e) else Models(past)
  }

  function Invocations(m: Entries): Entries {
    match m
    case Blank => Blank
    case Append(past, e) => if e.Model? then Invocations(past) else Append(Invocations(past), e)
  }

  function WithoutModels(m: Entries, role: Role): Entries {
    match m
    case Blank => Blank
    case Append(past, e) =>
      if e.Model? && e.role == role then WithoutModels(past, role) else Append(WithoutModels(past, role), e)
  }

  /** The artifact entry with a key; the last one if there are several. */
  function Find(m: Entries, role: Role, name: Name): Option<Entry> {
    match m
    case Blank => None
    case Append(past, e) =>
      if e.Model? && e.role == role && e.name == name then Some(e) else Find(past, role, name)
  }

  function FindSlot(m: Entries, role: Role, slot: Slot): Option<Entry> {
    match m
    case Blank => None
    case Append(past, e) =>
      if !e.Model? && e.role == role && SlotOf(e) == slot then Some(e) else FindSlot(past, role, slot)
  }

  function Keys(m: Entries): set<(Role, Name)> {
    match m
    case Blank => {}
    case Append(past, e) => if e.Model? then Keys(past) + {(e.role, e.name)} else Keys(past)
  }

  function Slots(m: Entries): set<(Role, Slot)> {
    match m
    case Blank => {}
    case Append(past, e) => if e.Model? then Slots(past) else Slots(past) + {(e.role, SlotOf(e))}
  }

  /** No two artifact entries share a key, and no two invocation entries a file. */
  predicate Distinct(m: Entries) {
    match m
    case Blank => true
    case Append(past, e) =>
      Distinct(past) && if e.Model? then Find(past, e.role, e.name).None? else FindSlot(past, e.role, SlotOf(e)).None?
  }

  /** The attempts of the metadata entries, in manifest order. */
  function Attempts(m: Entries): seq<nat> {
    match m
    case Blank => []
    case Append(past, e) => if e.Meta? then Attempts(past) + [e.attempt] else Attempts(past)
  }

  // ------------------------------------------------------------------ what filters keep

  /** Filtering changes no question about what it keeps. */
  lemma {:induction false} FindFiltered(m: Entries, role: Role, name: Name, slot: Slot)
    ensures Find(Of(m, role), role, name) == Find(Models(m), role, name) == Find(m, role, name)
    ensures FindSlot(Of(m, role), role, slot) == FindSlot(Invocations(m), role, slot) == FindSlot(m, role, slot)
  {
    if m.Append? {
      FindFiltered(m.past, role, name, slot);
    }
  }

  lemma {:induction false} KeysFind(m: Entries, role: Role, name: Name, slot: Slot)
    ensures (role, name) in Keys(m) <==> Find(m, role, name).Some?
    ensures (role, slot) in Slots(m) <==> FindSlot(m, role, slot).Some?
  {
    if m.Append? {
      KeysFind(m.past, role, name, slot);
    }
  }

  /** Filters keep keys. */
  lemma {:induction false} KeysFiltered(m: Entries, role: Role)
    ensures Keys(Models(m)) == Keys(m) && Slots(Invocations(m)) == Slots(m)
    ensures forall k :: k in Keys(Of(m, role)) <==> k in Keys(m) && k.0 == role
    ensures forall k :: k in Slots(Of(m, role)) <==> k in Slots(m) && k.0 == role
  {
    if m.Append? {
      KeysFiltered(m.past, role);
    }
  }

  lemma {:induction false} OfDistinct(m: Entries, role: Role)
    requires Distinct(m)
    ensures Distinct(Of(m, role)) && Distinct(Models(m)) && Distinct(Invocations(m))
  {
    if m.Append? {
      OfDistinct(m.past, role);
      var e := m.last;
      if e.Model? {
        FindFiltered(m.past, e.role, e.name, Slot(0, false));
      } else {
        FindFiltered(m.past, e.role, Candidate, SlotOf(e));
      }
    }
  }

  lemma {:induction false} AttemptsFiltered(m: Entries)
    ensures Attempts(Invocations(m)) == Attempts(m)
    ensures Invocations(Invocations(m)) == Invocations(m)
  {
    if m.Append? {
      AttemptsFiltered(m.past);
    }
  }

  // -------------------------------------------------------------------------- rewriting

  lemma {:induction false} WithoutModelsOf(m: Entries, gone: Role, role: Role)
    ensures Of(WithoutModels(m, gone), role) == if role == gone then Invocations(Of(m, role)) else Of(m, role)
  {
    if m.Append? {
      WithoutModelsOf(m.past, gone, role);
    }
  }

  lemma {:induction false} WithoutModelsFind(m: Entries, gone: Role, role: Role, name: Name, slot: Slot)
    ensures Find(WithoutModels(m, gone), role, name) == if role == gone then None else Find(m, role, name)
    ensures FindSlot(WithoutModels(m, gone), role, slot) == FindSlot(m, role, slot)
  {
    if m.Append? {
      WithoutModelsFind(m.past, gone, role, name, slot);
    }
  }

  lemma {:induction false} WithoutModelsDistinct(m: Entries, gone: Role)
    requires Distinct(m)
    ensures Distinct(WithoutModels(m, gone))
  {
    if m.Append? {
      WithoutModelsDistinct(m.past, gone);
      var e := m.last;
      if e.Model? {
        WithoutModelsFind(m.past, gone, e.role, e.name, Slot(0, false));
      } else {
        WithoutModelsFind(m.past, gone, e.role, Candidate, SlotOf(e));
      }
    }
  }

  lemma {:induction false} WithoutModelsAgain(m: Entries, gone: Role)
    ensures WithoutModels(WithoutModels(m, gone), gone) == WithoutModels(m, gone)
    ensures Models(Of(m, gone)).Blank? ==> WithoutModels(m, gone) == m
  {
    if m.Append? {
      WithoutModelsAgain(m.past, gone);
    }
  }

  // ---------------------------------------------------------------------------- sorting

  function Insert(x: nat, xs: seq<nat>): seq<nat> {
    if xs == [] || xs[|xs| - 1] <= x then xs + [x] else Insert(x, xs[..|xs| - 1]) + [xs[|xs| - 1]]
  }

  function Sorted(xs: seq<nat>): seq<nat> {
    if xs == [] then [] else Insert(xs[|xs| - 1], Sorted(xs[..|xs| - 1]))
  }

  /** 1, 2, ..., n. */
  function Upto(n: nat): seq<nat> {
    if n == 0 then [] else Upto(n - 1) + [n]
  }

  lemma {:induction false} SortedUpto(n: nat)
    ensures Sorted(Upto(n)) == Upto(n)
    ensures n > 0 ==> Upto(n)[|Upto(n)| - 1] == n && Upto(n)[..|Upto(n)| - 1] == Upto(n - 1)
  {
    if n > 0 {
      SortedUpto(n - 1);
      assert Upto(n)[..|Upto(n)| - 1] == Upto(n - 1);
    }
  }

  lemma {:induction false} InsertLength(x: nat, xs: seq<nat>)
    ensures |Insert(x, xs)| == |xs| + 1
  {
    if xs != [] && xs[|xs| - 1] > x {
      InsertLength(x, xs[..|xs| - 1]);
    }
  }

  lemma {:induction false} SortedLength(xs: seq<nat>)
    ensures |Sorted(xs)| == |xs|
  {
    if xs != [] {
      SortedLength(xs[..|xs| - 1]);
      InsertLength(xs[|xs| - 1], Sorted(xs[..|xs| - 1]));
    }
  }

  lemma {:induction false} UptoMeans(n: nat)
    ensures |Upto(n)| == n && forall i :: 0 <= i < n ==> Upto(n)[i] == i + 1
  {
    if n > 0 {
      UptoMeans(n - 1);
    }
  }

  /** An attempt is listed exactly when its record's slot is. */
  lemma {:induction false} AttemptsSlots(m: Entries, role: Role, n: nat)
    ensures (role, Slot(n, false)) in Slots(Of(m, role)) <==> n in Attempts(Of(m, role))
  {
    if m.Append? {
      AttemptsSlots(m.past, role, n);
    }
  }
}
