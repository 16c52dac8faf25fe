/**
 The heap of heap_concurrent.c as the marking algorithm sees it: objects with fields, collect bits, the intrusive
 lists threaded through the stack slots, and what it means that tracing cannot miss an object.
 */
module Marking {
  import opened Phases

  /** Addresses; 0 is NULL. */
  type Ptr = int

  /** The pseudo-object whose fields are the global variables and callback slots.  It is never a target. */
  const STATIC: Ptr := -1

  /** White: a target of this collection, not marked.  Marked: its collect bit is set.  New: allocated after its
      worker's snapshot, so not a target. */
  datatype Color = White | Marked | New

  /** The list an object is on: a root set, a remembered set, the stack of the thread tracing for w, or being scanned
      with the slots before k done.  Pending(w): the thread of w has set its collect bit and has yet to put it on the
      remembered set of w.  Static(k) is the link of STATIC: slots from k on not yet enumerated. */
  datatype Link = Free | Roots(w: Worker) | Remembered(w: Worker) | Pending(w: Worker) | Stack(w: Worker)
                | Scanning(w: Worker, k: nat) | Static(k: nat)

  /** owner is the worker in whose segments the object lies.  swept records, while a collection is being swept, that the
      object already belongs to the next one. */
  datatype Object = Object(fields: seq<Ptr>, color: Color, link: Link, owner: Worker, swept: bool)

  type Heap = map<Ptr, Object>

  predicate IsWhite(h: Heap, p: Ptr) { p in h && h[p].color == White }

  /** Slot k of o will still be scanned. */
  predicate Grey(o: Object, k: int) {
    match o.link
    case Free => false
    case Scanning(_, j) => j <= k
    case Static(j) => j <= k
    case _ => true
  }

  /** The lists on which an object is put when it is marked; all its slots are still to be scanned. */
  predicate IsList(l: Link) { l.Roots? || l.Remembered? || l.Pending? || l.Stack? }

  /** visit, followed by a push: the first thread to set the collect bit puts the object on a list. */
  function Visit(h: Heap, p: Ptr, link: Link): Heap {
    if IsWhite(h, p) then h[p := h[p].(color := Marked, link := link)] else h
  }

  /** What a mutator writes to a slot. */
  function SetField(h: Heap, o: Ptr, k: nat, v: Ptr): Heap
    requires o in h && k < |h[o].fields|
  {
    h[o := h[o].(fields := h[o].fields[k := v])]
  }

  function Relink(h: Heap, o: Ptr, link: Link): Heap
    requires o in h
  {
    h[o := h[o].(link := link)]
  }

  /** All objects of one list go to another at once: a list head is read and its objects belong to the reader. */
  function Take(h: Heap, from: Link, to: Link): Heap {
    map p <- h :: if h[p].link == from then h[p].(link := to) else h[p]
  }

  // ---------------------------------------------------------------- protection

  type Slot = (Ptr, int)

  /** Writes in flight.  loose: the slots that have changed since a thread that is about to overwrite them has read
      them, so that it has not remembered what they hold.  held: what threads have yet to remember although they have
      stored already. */
  datatype Flight = Flight(loose: set<Slot>, held: set<Ptr>)

  /** c contains every white object that is held or that a grey slot or a white member of c points to. */
  ghost predicate Closed(h: Heap, q: Flight, c: set<Ptr>) {
    && (forall p :: p in q.held && IsWhite(h, p) ==> p in c)
    && forall o, k :: o in h && 0 <= k < |h[o].fields| && (o, k) !in q.loose
                      && (Grey(h[o], k) || (h[o].color == White && o in c)) && IsWhite(h, h[o].fields[k])
                      ==> h[o].fields[k] in c
  }

  /** Tracing cannot miss x: x is in every set so closed, that is, some chain of white objects leads to it from a grey
      slot or from what is held. */
  ghost predicate Protected(h: Heap, q: Flight, x: Ptr) {
    forall c: set<Ptr> :: Closed(h, q, c) ==> x in c
  }

  /** x is no target, or marked, or will be reached by tracing. */
  ghost predicate Ok(h: Heap, q: Flight, x: Ptr) {
    IsWhite(h, x) ==> Protected(h, q, x)
  }

  /** A slot that carries protection. */
  predicate Carries(h: Heap, q: Flight, o: Ptr, k: int) {
    o in h && 0 <= k < |h[o].fields| && (o, k) !in q.loose && (Grey(h[o], k) || h[o].color == White)
    && IsWhite(h, h[o].fields[k])
  }

  /** From h to h' nothing turns white, what is held stays so, and a slot that carries protection keeps its value and
      goes on to carry it unless the value is held or no longer white. */
  ghost predicate Evolves(h: Heap, q: Flight, h': Heap, q': Flight) {
    && (forall p :: p in h && IsWhite(h', p) ==> IsWhite(h, p))
    && (forall p :: p in q.held && IsWhite(h, p) && IsWhite(h', p) ==> p in q'.held)
    && forall o, k :: Carries(h, q, o, k) && IsWhite(h', h[o].fields[k]) && h[o].fields[k] !in q'.held
                      ==> o in h' && k < |h'[o].fields| && h'[o].fields[k] == h[o].fields[k] && (o, k) !in q'.loose
                          && (Grey(h'[o], k) || (!Grey(h[o], k) && h'[o].color == White))
  }

  lemma ProtectedStays(h: Heap, q: Flight, h': Heap, q': Flight, x: Ptr)
    requires Evolves(h, q, h', q') && Protected(h, q, x) && x in h && IsWhite(h', x)
    ensures Protected(h', q', x)
  {
    forall c': set<Ptr> | Closed(h', q', c') ensures x in c' {
      var c := c' + set z | z in h && IsWhite(h, z) && !IsWhite(h', z);
      forall o, k | o in h && 0 <= k < |h[o].fields| && (o, k) !in q.loose
                    && (Grey(h[o], k) || (h[o].color == White && o in c)) && IsWhite(h, h[o].fields[k])
        ensures h[o].fields[k] in c
      {
        var v := h[o].fields[k];
        if IsWhite(h', v) && v !in q'.held {
          assert Carries(h, q, o, k);
          assert h'[o].fields[k] == v;
        }
      }
      assert Closed(h, q, c);
    }
  }

  lemma OkStays(h: Heap, q: Flight, h': Heap, q': Flight, x: Ptr)
    requires Evolves(h, q, h', q') && Ok(h, q, x) && (IsWhite(h', x) ==> x in h)
    ensures Ok(h', q', x)
  {
    if IsWhite(h', x) { ProtectedStays(h, q, h', q', x); }
  }

  /** A white value of a grey slot is protected, and so is a white value of a protected white object. */
  lemma SlotProtects(h: Heap, q: Flight, o: Ptr, k: int)
    requires o in h && 0 <= k < |h[o].fields| && (o, k) !in q.loose
    requires Grey(h[o], k) || (h[o].color == White && Protected(h, q, o))
    ensures Ok(h, q, h[o].fields[k])
  {
    var v := h[o].fields[k];
    if IsWhite(h, v) {
      forall c: set<Ptr> | Closed(h, q, c) ensures v in c {
        assert h[o].fields[k] == v;
      }
    }
  }

  /** What is held is safe. */
  lemma HeldIsOk(h: Heap, q: Flight, p: Ptr)
    requires p in q.held
    ensures Ok(h, q, p)
  {
  }

  ghost predicate NothingHeld(h: Heap, q: Flight) { forall p :: p in q.held ==> !IsWhite(h, p) }

  /** When no slot is grey and nothing white is held, every object that tracing cannot miss has been marked already. */
  lemma NothingGreyNothingProtected(h: Heap, q: Flight, x: Ptr)
    requires forall o, k :: o in h && 0 <= k < |h[o].fields| ==> !Grey(h[o], k)
    requires NothingHeld(h, q)
    ensures !Protected(h, q, x)
  {
    assert Closed(h, q, {});
  }

  // ---------------------------------------------------------------- the slots of scanned objects

  /** What has been scanned, and what was never a target, points only to what is marked or will be; and so does a slot
      that is about to be overwritten by a thread that does not know its value. */
  ghost predicate SlotsOk(h: Heap, q: Flight) {
    forall o, k :: o in h && 0 <= k < |h[o].fields| && ((h[o].color != White && !Grey(h[o], k)) || (o, k) in q.loose)
                   ==> Ok(h, q, h[o].fields[k])
  }

  /** A slot that is scanned in h' was scanned in h with the same value, or its value is fine in h'. */
  ghost predicate Scanned(h: Heap, q: Flight, h': Heap, q': Flight, o: Ptr, k: nat)
    requires o in h' && k < |h'[o].fields|
  {
    || Ok(h', q', h'[o].fields[k])
    || (o in h && k < |h[o].fields| && ((h[o].color != White && !Grey(h[o], k)) || (o, k) in q.loose)
        && h[o].fields[k] == h'[o].fields[k])
  }

  lemma SlotsStay(h: Heap, q: Flight, h': Heap, q': Flight)
    requires SlotsOk(h, q) && Evolves(h, q, h', q')
    requires forall o, k: nat :: o in h' && k < |h'[o].fields|
                                 && ((h'[o].color != White && !Grey(h'[o], k)) || (o, k) in q'.loose)
                                 ==> Scanned(h, q, h', q', o, k)
    requires forall o, k :: o in h && 0 <= k < |h[o].fields| && IsWhite(h', h[o].fields[k]) ==> h[o].fields[k] in h
    ensures SlotsOk(h', q')
  {
    forall o, k | o in h' && 0 <= k < |h'[o].fields|
                  && ((h'[o].color != White && !Grey(h'[o], k)) || (o, k) in q'.loose)
      ensures Ok(h', q', h'[o].fields[k])
    {
      assert Scanned(h, q, h', q', o, k);
      if !Ok(h', q', h'[o].fields[k]) {
        OkStays(h, q, h', q', h[o].fields[k]);
      }
    }
  }

  lemma VisitEvolves(h: Heap, q: Flight, p: Ptr, link: Link)
    requires IsList(link)
    ensures Evolves(h, q, Visit(h, p, link), q) && !IsWhite(Visit(h, p, link), p)
  {
  }

  lemma VisitKeepsSlots(h: Heap, q: Flight, p: Ptr, link: Link)
    requires IsList(link) && SlotsOk(h, q)
    ensures SlotsOk(Visit(h, p, link), q)
  {
    VisitEvolves(h, q, p, link);
    SlotsStay(h, q, Visit(h, p, link), q);
  }

  /** What a write in flight may leave in place of q when it stores to slot k of o: nobody holds less, and whoever has
      read another value there does not know the new one. */
  ghost predicate Stores(h: Heap, q: Flight, o: Ptr, k: nat, v: Ptr, q': Flight) {
    && q.held <= q'.held
    && forall p, i :: (p, i) in q'.loose ==> (p, i) in q.loose || (p == o && i == k)
  }

  /** The deletion barrier's half of the proof: a store loses nothing if the slot has been loose, or the value that is
      overwritten is held or not white. */
  lemma SetFieldEvolves(h: Heap, q: Flight, o: Ptr, k: nat, v: Ptr, q': Flight)
    requires o in h && k < |h[o].fields| && Stores(h, q, o, k, v, q')
    requires (o, k) in q.loose || h[o].fields[k] in q'.held || !IsWhite(h, h[o].fields[k])
    ensures Evolves(h, q, SetField(h, o, k, v), q')
  {
  }

  /** The insertion barrier's half: the value written must itself be safe. */
  lemma SetFieldKeepsSlots(h: Heap, q: Flight, o: Ptr, k: nat, v: Ptr, q': Flight)
    requires o in h && k < |h[o].fields| && Stores(h, q, o, k, v, q')
    requires (o, k) in q.loose || h[o].fields[k] in q'.held || !IsWhite(h, h[o].fields[k])
    requires SlotsOk(h, q) && (Ok(h, q, v) || v in q'.held)
    ensures SlotsOk(SetField(h, o, k, v), q')
  {
    var h' := SetField(h, o, k, v);
    SetFieldEvolves(h, q, o, k, v, q');
    if Ok(h, q, v) { OkStays(h, q, h', q', v); } else { HeldIsOk(h', q', v); }
    SlotsStay(h, q, h', q');
  }

  /** Moving a marked object from list to list keeps its slots grey. */
  lemma RelinkEvolves(h: Heap, q: Flight, o: Ptr, link: Link)
    requires o in h && h[o].color != White
    requires forall k :: 0 <= k < |h[o].fields| && Grey(h[o], k) ==>
             Grey(h[o].(link := link), k) || !IsWhite(h, h[o].fields[k])
    ensures Evolves(h, q, Relink(h, o, link), q)
    ensures SlotsOk(h, q) ==> SlotsOk(Relink(h, o, link), q)
  {
    var h' := Relink(h, o, link);
    if SlotsOk(h, q) {
      forall i, k: nat | i in h' && k < |h'[i].fields|
                         && ((h'[i].color != White && !Grey(h'[i], k)) || (i, k) in q.loose)
        ensures Scanned(h, q, h', q, i, k)
      {
        if i == o && Grey(h[o], k) && (i, k) !in q.loose { assert !IsWhite(h', h'[o].fields[k]); }
      }
      SlotsStay(h, q, h', q);
    }
  }

  lemma TakeEvolves(h: Heap, q: Flight, from: Link, to: Link)
    requires IsList(to)
    ensures Evolves(h, q, Take(h, from, to), q)
    ensures SlotsOk(h, q) ==> SlotsOk(Take(h, from, to), q)
  {
    if SlotsOk(h, q) { SlotsStay(h, q, Take(h, from, to), q); }
  }

  /** Fewer loose slots and more held objects protect more. */
  lemma LessInFlight(h: Heap, q: Flight, q': Flight)
    requires q'.loose <= q.loose && forall p :: p in q.held ==> p in q'.held || !IsWhite(h, p)
    ensures Evolves(h, q, h, q') && (SlotsOk(h, q) ==> SlotsOk(h, q'))
  {
    if SlotsOk(h, q) { SlotsStay(h, q, h, q'); }
  }

  /** Loading slot k of a safe object gives a safe value. */
  lemma LoadIsOk(h: Heap, q: Flight, o: Ptr, k: nat)
    requires o in h && k < |h[o].fields| && Ok(h, q, o) && SlotsOk(h, q)
    ensures Ok(h, q, h[o].fields[k])
  {
    if (o, k) !in q.loose && (Grey(h[o], k) || h[o].color == White) { SlotProtects(h, q, o, k); }
  }
}
