/** The `python::Object` handle: an owner of at most one share of a foreign object's
    reference count, with a diagnostic name.

    A handle is a slot index into the ledger's `slots`, so two names for the same handle
    (the `this == &other` case of the assignment operators) are simply equal indices.
    `Py_XINCREF` / `Py_XDECREF` are "add / subtract one unless the pointer is null", which
    is `Bump` with a nullable pointer. The logging done by `increase_ref` and
    `decrease_ref` only prints and is not modelled.

    Each operation states its exact effect on slots and counts; a companion lemma shows
    that it keeps the ledger balanced and sound. */
module PythonObject {
  import opened Ledger

  /** A constructor's outcome: the new ledger and the slot of the constructed handle. */
  datatype Made = Made(state: State, slot: SlotId)

  // ---------------------------------------------------------------------------
  // Private helpers of the class

  /** `increase_ref`: `Py_XINCREF` on the handle's own pointer. Only the count moves. */
  function IncreaseRef(st: State, s: SlotId): (r: State)
    requires IsLive(st, s)
    ensures r.slots == st.slots && r.runtime == st.runtime && r.loose == st.loose
    ensures Ptr(st, s).None? ==> r == st
    ensures Ptr(st, s).Some? ==> Count(r, Ptr(st, s).value) == Count(st, Ptr(st, s).value) + 1
  {
    st.(count := Bump(st.count, Ptr(st, s), 1))
  }

  /** `decrease_ref`: `Py_XDECREF` on the handle's own pointer. Only the count moves. */
  function DecreaseRef(st: State, s: SlotId): (r: State)
    requires IsLive(st, s)
    ensures r.slots == st.slots && r.runtime == st.runtime && r.loose == st.loose
    ensures Ptr(st, s).None? ==> r == st
    ensures Ptr(st, s).Some? ==> Count(r, Ptr(st, s).value) == Count(st, Ptr(st, s).value) - 1
  {
    st.(count := Bump(st.count, Ptr(st, s), -1))
  }

  // ---------------------------------------------------------------------------
  // Constructors

  /** `Object()`: a null handle with an empty name; no count changes. */
  function DefaultConstruct(st: State): (m: Made)
    ensures m.slot == |st.slots| && |m.state.slots| == |st.slots| + 1 && IsLive(m.state, m.slot)
    ensures IsNull(m.state, m.slot) && Name(m.state, m.slot) == ""
    ensures m.state.slots[..|st.slots|] == st.slots
    ensures m.state.count == st.count && m.state.runtime == st.runtime && m.state.loose == st.loose
  {
    Made(st.(slots := st.slots + [Live(Handle(None, ""))]), |st.slots|)
  }

  /** `Object(PyObject*)` and `Object(PyObject*, std::string)`: store the pointer and take
      over the share the caller owns, without touching any count. */
  function Adopt(st: State, p: Option<ObjId>, name: string): (m: Made)
    ensures m.slot == |st.slots| && |m.state.slots| == |st.slots| + 1 && IsLive(m.state, m.slot)
    ensures Get(m.state, m.slot) == p && Name(m.state, m.slot) == name
    ensures m.state.slots[..|st.slots|] == st.slots
    ensures m.state.count == st.count && m.state.runtime == st.runtime
    ensures p.None? ==> m.state.loose == st.loose
    ensures p.Some? ==> Loose(m.state, p.value) == Loose(st, p.value) - 1
  {
    Made(st.(slots := st.slots + [Live(Handle(p, name))], loose := Bump(st.loose, p, -1)), |st.slots|)
  }

  /** `Object(const Object&)`: a second owner of the same object, one more share. */
  function CopyConstruct(st: State, src: SlotId): (m: Made)
    requires IsLive(st, src)
    ensures m.slot == |st.slots| && |m.state.slots| == |st.slots| + 1 && IsLive(m.state, m.slot)
    ensures Get(m.state, m.slot) == Get(st, src) && Name(m.state, m.slot) == Name(st, src)
    ensures m.state.slots[..|st.slots|] == st.slots
    ensures m.state.runtime == st.runtime && m.state.loose == st.loose
    ensures IsValid(st, src) ==> Count(m.state, Ptr(st, src).value) == Count(st, Ptr(st, src).value) + 1
    ensures IsNull(st, src) ==> m.state.count == st.count
  {
    var placed := st.(slots := st.slots + [st.slots[src]]);
    Made(IncreaseRef(placed, |st.slots|), |st.slots|)
  }

  /** `Object(Object&&)`: the new handle takes the pointer and the name; the source is left
      null (and, as a moved-from string, with an empty name). No count changes. The
      source's `this != &other` guard always holds: the new handle is a fresh slot. */
  function MoveConstruct(st: State, src: SlotId): (m: Made)
    requires IsLive(st, src)
    ensures m.slot == |st.slots| && |m.state.slots| == |st.slots| + 1 && IsLive(m.state, m.slot)
    ensures Get(m.state, m.slot) == Get(st, src) && Name(m.state, m.slot) == Name(st, src)
    ensures IsLive(m.state, src) && IsNull(m.state, src)
    ensures m.state.slots[..|st.slots|] == st.slots[src := m.state.slots[src]]
    ensures m.state.count == st.count && m.state.runtime == st.runtime && m.state.loose == st.loose
  {
    Made(st.(slots := st.slots[src := Live(Handle(None, ""))] + [st.slots[src]]), |st.slots|)
  }

  // ---------------------------------------------------------------------------
  // Assignment and destruction

  /** `operator=(const Object&)`: on self-assignment nothing happens; otherwise release the
      destination's share, take the source's pointer and name, and acquire a new share. */
  function CopyAssign(st: State, dst: SlotId, src: SlotId): (r: State)
    requires IsLive(st, dst) && IsLive(st, src)
    ensures dst == src ==> r == st
    ensures |r.slots| == |st.slots| && IsLive(r, dst) && r.slots[src] == st.slots[src]
    ensures Get(r, dst) == Get(st, src) && Name(r, dst) == Name(st, src)
    ensures r.slots == st.slots[dst := r.slots[dst]]
    ensures r.runtime == st.runtime && r.loose == st.loose
  {
    if dst == src then st
    else
      var released := DecreaseRef(st, dst);
      IncreaseRef(released.(slots := released.slots[dst := st.slots[src]]), dst)
  }

  /** `operator=(Object&&)`: on self-assignment nothing happens; otherwise release the
      destination's share, take the source's pointer and name, and leave the source null.
      The share the source held moves with the pointer; nothing is acquired. */
  function MoveAssign(st: State, dst: SlotId, src: SlotId): (r: State)
    requires IsLive(st, dst) && IsLive(st, src)
    ensures dst == src ==> r == st
    ensures |r.slots| == |st.slots| && IsLive(r, dst) && IsLive(r, src)
    ensures Get(r, dst) == Get(st, src) && Name(r, dst) == Name(st, src)
    ensures dst != src ==> IsNull(r, src)
    ensures r.slots == st.slots[dst := r.slots[dst]][src := r.slots[src]]
    ensures r.runtime == st.runtime && r.loose == st.loose
  {
    if dst == src then st
    else
      var released := DecreaseRef(st, dst);
      released.(slots := released.slots[dst := st.slots[src]][src := Live(Handle(None, ""))])
  }

  /** `~Object()`: release the handle's share, if it holds one; the slot is gone. */
  function Destroy(st: State, s: SlotId): (r: State)
    requires IsLive(st, s)
    ensures r.slots == st.slots[s := Free]
    ensures r.runtime == st.runtime && r.loose == st.loose
    ensures IsValid(st, s) ==> Count(r, Ptr(st, s).value) == Count(st, Ptr(st, s).value) - 1
    ensures IsNull(st, s) ==> r.count == st.count
  {
    var released := DecreaseRef(st, s);
    released.(slots := released.slots[s := Free])
  }

  // ---------------------------------------------------------------------------
  // Observers

  /** `operator!`: the handle is null. */
  predicate IsNull(st: State, s: SlotId)
    requires IsLive(st, s)
  {
    Ptr(st, s) == None
  }

  /** `explicit operator bool`: the handle is non-null. */
  predicate IsValid(st: State, s: SlotId)
    requires IsLive(st, s)
  {
    Ptr(st, s) != None
  }

  /** `get()` and `operator*`: a non-owning peek at the pointer. */
  function Get(st: State, s: SlotId): (p: Option<ObjId>)
    requires IsLive(st, s)
    ensures p.None? <==> IsNull(st, s)
    ensures p.Some? <==> IsValid(st, s)
  {
    Ptr(st, s)
  }

  /** `set_name`: only the diagnostic name changes. */
  function SetName(st: State, s: SlotId, name: string): (r: State)
    requires IsLive(st, s)
    ensures IsLive(r, s) && Get(r, s) == Get(st, s) && Name(r, s) == name
    ensures r.slots == st.slots[s := r.slots[s]]
    ensures r.count == st.count && r.runtime == st.runtime && r.loose == st.loose
  {
    st.(slots := st.slots[s := Live(Handle(Ptr(st, s), name))])
  }

  /** `operator!` is exactly the negation of `operator bool`. */
  lemma NotIsNegatedBool(st: State, s: SlotId)
    requires IsLive(st, s)
    ensures IsNull(st, s) <==> !IsValid(st, s)
  {
  }

  // ---------------------------------------------------------------------------
  // Exact count effects: only the handle's own object moves, by one share

  lemma IncreaseRefCounts(st: State, s: SlotId)
    requires IsLive(st, s)
    ensures forall o: ObjId :: Count(IncreaseRef(st, s), o) == Count(st, o) + Hit(Ptr(st, s), o)
  {
  }

  lemma DecreaseRefCounts(st: State, s: SlotId)
    requires IsLive(st, s)
    ensures forall o: ObjId :: Count(DecreaseRef(st, s), o) == Count(st, o) - Hit(Ptr(st, s), o)
  {
  }

  /** Adopting moves one loose share of the object into the new handle. */
  lemma AdoptShares(st: State, p: Option<ObjId>, name: string)
    ensures forall o: ObjId :: Loose(Adopt(st, p, name).state, o) == Loose(st, o) - Hit(p, o)
  {
  }

  lemma CopyConstructCounts(st: State, src: SlotId)
    requires IsLive(st, src)
    ensures forall o: ObjId :: Count(CopyConstruct(st, src).state, o) == Count(st, o) + Hit(Ptr(st, src), o)
  {
    IncreaseRefCounts(st.(slots := st.slots + [st.slots[src]]), |st.slots|);
  }

  lemma CopyAssignCounts(st: State, dst: SlotId, src: SlotId)
    requires IsLive(st, dst) && IsLive(st, src)
    ensures dst != src ==> forall o: ObjId ::
      Count(CopyAssign(st, dst, src), o) == Count(st, o) - Hit(Ptr(st, dst), o) + Hit(Ptr(st, src), o)
  {
    if dst != src {
      var released := DecreaseRef(st, dst);
      DecreaseRefCounts(st, dst);
      IncreaseRefCounts(released.(slots := released.slots[dst := st.slots[src]]), dst);
    }
  }

  lemma MoveAssignCounts(st: State, dst: SlotId, src: SlotId)
    requires IsLive(st, dst) && IsLive(st, src)
    ensures dst != src ==> forall o: ObjId :: Count(MoveAssign(st, dst, src), o) == Count(st, o) - Hit(Ptr(st, dst), o)
  {
    if dst != src {
      DecreaseRefCounts(st, dst);
    }
  }

  lemma DestroyCounts(st: State, s: SlotId)
    requires IsLive(st, s)
    ensures forall o: ObjId :: Count(Destroy(st, s), o) == Count(st, o) - Hit(Ptr(st, s), o)
  {
    DecreaseRefCounts(st, s);
  }

  // ---------------------------------------------------------------------------
  // Every operation keeps the ledger balanced, and sound

  lemma DefaultConstructKeepsBalance(st: State)
    ensures Balanced(st) ==> Balanced(DefaultConstruct(st).state)
    ensures Sound(st) ==> Sound(DefaultConstruct(st).state)
  {
    HoldersAfterAppend(st.slots, Live(Handle(None, "")));
  }

  /** Adopting keeps the ledger balanced, and keeps a sound ledger sound exactly when the
      caller really owned the share it hands over. */
  lemma AdoptKeepsBalance(st: State, p: Option<ObjId>, name: string)
    ensures Balanced(st) ==> Balanced(Adopt(st, p, name).state)
    ensures Sound(st) && (p.Some? ==> Loose(st, p.value) >= 1) ==> Sound(Adopt(st, p, name).state)
    ensures p.Some? && Loose(st, p.value) < 1 ==> !Sound(Adopt(st, p, name).state)
  {
    HoldersAfterAppend(st.slots, Live(Handle(p, name)));
    if p.Some? && Loose(st, p.value) < 1 {
      assert Loose(Adopt(st, p, name).state, p.value) < 0;
    }
  }

  lemma CopyConstructKeepsBalance(st: State, src: SlotId)
    requires IsLive(st, src)
    ensures Balanced(st) ==> Balanced(CopyConstruct(st, src).state)
    ensures Sound(st) ==> Sound(CopyConstruct(st, src).state)
  {
    CopyConstructCounts(st, src);
    HoldersAfterAppend(st.slots, st.slots[src]);
    if Sound(st) {
      SoundCarries(st, CopyConstruct(st, src).state);
    }
  }

  lemma MoveConstructKeepsBalance(st: State, src: SlotId)
    requires IsLive(st, src)
    ensures Balanced(st) ==> Balanced(MoveConstruct(st, src).state)
    ensures Sound(st) ==> Sound(MoveConstruct(st, src).state)
  {
    var emptied := st.slots[src := Live(Handle(None, ""))];
    HoldersAfterUpdate(st.slots, src, Live(Handle(None, "")));
    HoldersAfterAppend(emptied, st.slots[src]);
    if Sound(st) {
      SoundCarries(st, MoveConstruct(st, src).state);
    }
  }

  lemma CopyAssignKeepsBalance(st: State, dst: SlotId, src: SlotId)
    requires IsLive(st, dst) && IsLive(st, src)
    ensures Balanced(st) ==> Balanced(CopyAssign(st, dst, src))
    ensures Sound(st) ==> Sound(CopyAssign(st, dst, src))
  {
    if dst != src {
      CopyAssignCounts(st, dst, src);
      HoldersAfterUpdate(st.slots, dst, st.slots[src]);
      if Sound(st) {
        SoundCarries(st, CopyAssign(st, dst, src));
      }
    }
  }

  lemma MoveAssignKeepsBalance(st: State, dst: SlotId, src: SlotId)
    requires IsLive(st, dst) && IsLive(st, src)
    ensures Balanced(st) ==> Balanced(MoveAssign(st, dst, src))
    ensures Sound(st) ==> Sound(MoveAssign(st, dst, src))
  {
    if dst != src {
      MoveAssignCounts(st, dst, src);
      HoldersAfterUpdate(st.slots, dst, st.slots[src]);
      HoldersAfterUpdate(st.slots[dst := st.slots[src]], src, Live(Handle(None, "")));
      if Sound(st) {
        SoundCarries(st, MoveAssign(st, dst, src));
      }
    }
  }

  lemma DestroyKeepsBalance(st: State, s: SlotId)
    requires IsLive(st, s)
    ensures Balanced(st) ==> Balanced(Destroy(st, s))
    ensures Sound(st) ==> Sound(Destroy(st, s))
  {
    DestroyCounts(st, s);
    HoldersAfterUpdate(st.slots, s, Free);
    if Sound(st) {
      SoundCarries(st, Destroy(st, s));
    }
  }

  lemma SetNameKeepsBalance(st: State, s: SlotId, name: string)
    requires IsLive(st, s)
    ensures Balanced(st) ==> Balanced(SetName(st, s, name))
    ensures Sound(st) ==> Sound(SetName(st, s, name))
  {
    var r := SetName(st, s, name);
    var x := Live(Handle(Ptr(st, s), name));
    assert r.slots == st.slots[s := x];
    forall o: ObjId ensures Holders(r.slots, o) == Holders(st.slots, o) {
      HoldersUpdate(st.slots, s, x, o);
    }
    if Sound(st) {
      SoundCarries(st, r);
    }
  }
}
