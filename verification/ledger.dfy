/** The reference-count ledger that `python::Object` handles act on.

    A foreign object is an `ObjId`; its reference count lives in `count`. Every share of
    that count has exactly one owner, and the ledger records who it is:
      - `runtime[o]`: shares owned inside the foreign runtime (items of a tuple, the
        module table, small-integer caches, ...);
      - `loose[o]`:   raw shares the host code owns outside any handle, such as a
        new reference returned by a foreign call that has not yet been wrapped;
      - the live handle slots whose pointer is `o`.
    `Balanced` says the count is exactly the sum of those owners; `Sound` additionally
    says no owner holds a negative number of shares (nobody gave away a share it did not
    own). */
module Ledger {

  type ObjId = nat
  type SlotId = nat

  datatype Option<+T> = None | Some(value: T)

  /** One `python::Object`: the wrapped pointer (`None` is `nullptr`) and its diagnostic name. */
  datatype Handle = Handle(ptr: Option<ObjId>, name: string)

  /** A handle's storage: `Free` once the handle has been destroyed (or never existed). */
  datatype Slot = Free | Live(handle: Handle)

  datatype State = State(
    slots: seq<Slot>,
    count: map<ObjId, int>,
    runtime: map<ObjId, int>,
    loose: map<ObjId, int>)

  /** A missing key reads as zero. */
  function At(m: map<ObjId, int>, o: ObjId): int
  {
    if o in m then m[o] else 0
  }

  /** 1 when the (nullable) pointer `p` is `o`, else 0. */
  function Hit(p: Option<ObjId>, o: ObjId): int
  {
    if p == Some(o) then 1 else 0
  }

  /** Adds `d` to the entry of `p`; a null pointer changes nothing (the `Py_X` rule). */
  function Bump(m: map<ObjId, int>, p: Option<ObjId>, d: int): (r: map<ObjId, int>)
    ensures forall o: ObjId :: At(r, o) == At(m, o) + (if p == Some(o) then d else 0)
  {
    match p
    case None => m
    case Some(x) => m[x := At(m, x) + d]
  }

  function Count(st: State, o: ObjId): int { At(st.count, o) }
  function Runtime(st: State, o: ObjId): int { At(st.runtime, o) }
  function Loose(st: State, o: ObjId): int { At(st.loose, o) }

  /** 1 when the slot is a live handle pointing at `o`. */
  function Holds(s: Slot, o: ObjId): nat
  {
    if s.Live? && s.handle.ptr == Some(o) then 1 else 0
  }

  /** Number of live handles pointing at `o`. */
  function Holders(slots: seq<Slot>, o: ObjId): nat
  {
    if |slots| == 0 then 0 else Holders(slots[..|slots| - 1], o) + Holds(slots[|slots| - 1], o)
  }

  predicate IsLive(st: State, s: SlotId)
  {
    s < |st.slots| && st.slots[s].Live?
  }

  function Ptr(st: State, s: SlotId): Option<ObjId>
    requires IsLive(st, s)
  {
    st.slots[s].handle.ptr
  }

  function Name(st: State, s: SlotId): string
    requires IsLive(st, s)
  {
    st.slots[s].handle.name
  }

  /** Every reference count equals the shares its owners hold. */
  ghost predicate Balanced(st: State)
  {
    forall o: ObjId :: Count(st, o) == Runtime(st, o) + Loose(st, o) + Holders(st.slots, o)
  }

  /** Balanced, and no owner holds fewer than zero shares. */
  ghost predicate Sound(st: State)
  {
    && Balanced(st)
    && (forall o: ObjId :: Runtime(st, o) >= 0)
    && (forall o: ObjId :: Loose(st, o) >= 0)
  }

  // ---------------------------------------------------------------------------
  // Counting live handles

  lemma {:induction false} HoldersUpdate(slots: seq<Slot>, i: nat, x: Slot, o: ObjId)
    requires i < |slots|
    ensures Holders(slots[i := x], o) == Holders(slots, o) - Holds(slots[i], o) + Holds(x, o)
  {
    var n := |slots| - 1;
    if i == n {
      assert slots[i := x][..n] == slots[..n];
    } else {
      HoldersUpdate(slots[..n], i, x, o);
      assert slots[i := x][..n] == slots[..n][i := x];
    }
  }

  lemma HoldersAfterUpdate(slots: seq<Slot>, i: nat, x: Slot)
    requires i < |slots|
    ensures forall o: ObjId :: Holders(slots[i := x], o) == Holders(slots, o) - Holds(slots[i], o) + Holds(x, o)
  {
    forall o: ObjId ensures Holders(slots[i := x], o) == Holders(slots, o) - Holds(slots[i], o) + Holds(x, o) {
      HoldersUpdate(slots, i, x, o);
    }
  }

  lemma HoldersAfterAppend(slots: seq<Slot>, x: Slot)
    ensures forall o: ObjId :: Holders(slots + [x], o) == Holders(slots, o) + Holds(x, o)
  {
    assert (slots + [x])[..|slots|] == slots;
  }

  /** A live handle pointing at `o` is counted among its holders. */
  lemma {:induction false} HolderCounted(slots: seq<Slot>, s: nat, o: ObjId)
    requires s < |slots| && Holds(slots[s], o) == 1
    ensures Holders(slots, o) >= 1
  {
    var n := |slots| - 1;
    if s < n {
      HolderCounted(slots[..n], s, o);
    }
  }

  // ---------------------------------------------------------------------------
  // Ownership facts

  /** Under a sound ledger, an object some live handle points at has a positive count:
      no handle ever dangles, and releasing it cannot drive the count below zero. */
  lemma LiveHandleKeepsObjectAlive(st: State, s: SlotId, o: ObjId)
    requires Sound(st)
    requires IsLive(st, s) && Ptr(st, s) == Some(o)
    ensures Count(st, o) >= 1
  {
    HolderCounted(st.slots, s, o);
    assert Count(st, o) == Runtime(st, o) + Loose(st, o) + Holders(st.slots, o);
  }

  /** When a scope ends with the handle storage it started with, every count has moved by
      exactly what the runtime and loose shares moved. */
  lemma ScopeAccounts(st: State, r: State, o: ObjId)
    requires Balanced(st) && Balanced(r) && r.slots == st.slots
    ensures Count(r, o) - Count(st, o) == (Runtime(r, o) - Runtime(st, o)) + (Loose(r, o) - Loose(st, o))
  {
    assert Count(r, o) == Runtime(r, o) + Loose(r, o) + Holders(r.slots, o);
    assert Count(st, o) == Runtime(st, o) + Loose(st, o) + Holders(st.slots, o);
  }

  /** An operation that leaves runtime and loose shares alone keeps a sound ledger sound as
      long as it keeps it balanced. */
  lemma SoundCarries(st: State, r: State)
    requires Sound(st) && Balanced(r)
    requires r.runtime == st.runtime && r.loose == st.loose
    ensures Sound(r)
  {
    forall o: ObjId ensures Runtime(r, o) >= 0 && Loose(r, o) >= 0 {
      assert Runtime(r, o) == Runtime(st, o) && Loose(r, o) == Loose(st, o);
    }
  }

  /** The storage of the innermost automatic object goes back to the stack once its
      destructor has run. */
  function Pop(st: State): (r: State)
    requires |st.slots| > 0 && st.slots[|st.slots| - 1] == Free
    ensures r.slots == st.slots[..|st.slots| - 1]
    ensures r.count == st.count && r.runtime == st.runtime && r.loose == st.loose
  {
    st.(slots := st.slots[..|st.slots| - 1])
  }

  /** A freed slot holds nothing, so giving it back keeps the ledger balanced and sound. */
  lemma PopKeepsBalance(st: State)
    requires |st.slots| > 0 && st.slots[|st.slots| - 1] == Free
    ensures Balanced(st) ==> Balanced(Pop(st))
    ensures Sound(st) ==> Sound(Pop(st))
  {
    forall o: ObjId ensures Holders(Pop(st).slots, o) == Holders(st.slots, o) {
    }
    if Sound(st) {
      SoundCarries(st, Pop(st));
    }
  }

  // ---------------------------------------------------------------------------
  // Foreign-side primitives

  /** A foreign call returned `p` as a new (owned) reference, or `Py_INCREF` was applied to
      the raw pointer `p`: the count rises by one and the host owns that share outright. */
  function NewReference(st: State, p: Option<ObjId>): (r: State)
    ensures r.slots == st.slots && r.runtime == st.runtime
    ensures p.None? ==> r == st
    ensures p.Some? ==> Count(r, p.value) == Count(st, p.value) + 1 && Loose(r, p.value) == Loose(st, p.value) + 1
  {
    st.(count := Bump(st.count, p, 1), loose := Bump(st.loose, p, 1))
  }

  /** Only the new reference's object moves, and the ledger stays balanced and sound. */
  lemma NewReferenceAccounts(st: State, p: Option<ObjId>)
    ensures forall o: ObjId :: Count(NewReference(st, p), o) == Count(st, o) + Hit(p, o)
    ensures forall o: ObjId :: Loose(NewReference(st, p), o) == Loose(st, o) + Hit(p, o)
    ensures Balanced(st) ==> Balanced(NewReference(st, p))
    ensures Sound(st) ==> Sound(NewReference(st, p))
  {
  }

  /** `PyTuple_SetItem(tuple, i, item)`: the tuple takes over one share of `item` that the
      caller is taken to own, even when the insertion fails. The count does not move. */
  function Steal(st: State, item: ObjId): (r: State)
    ensures r.slots == st.slots && r.count == st.count
    ensures Runtime(r, item) == Runtime(st, item) + 1
    ensures Loose(r, item) == Loose(st, item) - 1
  {
    st.(runtime := Bump(st.runtime, Some(item), 1), loose := Bump(st.loose, Some(item), -1))
  }

  /** The steal keeps the ledger balanced; it keeps it sound only when the caller really
      owned a loose share of the item, and otherwise drives that owner below zero. */
  lemma StealAccounts(st: State, item: ObjId)
    ensures forall o: ObjId :: Runtime(Steal(st, item), o) == Runtime(st, o) + Hit(Some(item), o)
    ensures forall o: ObjId :: Loose(Steal(st, item), o) == Loose(st, o) - Hit(Some(item), o)
    ensures Balanced(st) ==> Balanced(Steal(st, item))
    ensures Sound(st) && Loose(st, item) >= 1 ==> Sound(Steal(st, item))
    ensures Loose(st, item) < 1 ==> !Sound(Steal(st, item))
  {
  }
}
