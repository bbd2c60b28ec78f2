/**
 * Slot list maintenance of the five-parameter signal: connecting callbacks,
 * purging invalidated slots and invoking the enabled ones in order.
 *
 * What a callback does when it runs is outside the model; a callback is the
 * kind of target it wraps, with opaque numbers standing for functions,
 * instances, user data and functors. Invoking returns the callbacks fired.
 */
module Signals {

  /** The five callback kinds a connect overload can create. */
  datatype Callback =
    | StaticCall(fn: nat)
    | StaticUserCall(fn: nat, userData: nat)
    | MemberCall(instance: nat, fn: nat)
    | MemberUserCall(instance: nat, fn: nat, userData: nat)
    | FunctorCall(functor: nat)

  /** A slot record shared between the signal's list and the Slot handle returned to the caller. */
  class SlotCallback {
    const callback: Callback
    var valid: bool
    var enabled: bool

    constructor(callback: Callback)
      ensures this.callback == callback && valid && enabled
    {
      this.callback := callback;
      valid := true;
      enabled := true;
    }
  }

  /** The implementation object that copies of a signal share. */
  class SignalImpl {
    var connectedSlots: seq<SlotCallback>

    constructor()
      ensures connectedSlots == []
    {
      connectedSlots := [];
    }
  }

  /** The modulus of the unsigned size type the index loop of the purge runs on. */
  const SizeTypeModulus: int := 0x1_0000_0000_0000_0000

  /** `i--` on the size type. */
  function SizeDecrement(i: int): (r: int)
    requires 0 <= i < SizeTypeModulus
    ensures 0 <= r < SizeTypeModulus
    ensures i == 0 ==> r == SizeTypeModulus - 1
    ensures i > 0 ==> r == i - 1
  {
    (i - 1) % SizeTypeModulus
  }

  /** `i++` on the size type. */
  function SizeIncrement(i: int): (r: int)
    requires 0 <= i < SizeTypeModulus
    ensures 0 <= r < SizeTypeModulus
    ensures i == SizeTypeModulus - 1 ==> r == 0
    ensures i < SizeTypeModulus - 1 ==> r == i + 1
  {
    (i + 1) % SizeTypeModulus
  }

  /** The slots that are still valid, in their original order. */
  function ValidSlots(slots: seq<SlotCallback>): (r: seq<SlotCallback>)
    reads slots
    ensures |r| <= |slots|
  {
    if slots == [] then []
    else
      var last := slots[|slots| - 1];
      ValidSlots(slots[..|slots| - 1]) + (if last.valid then [last] else [])
  }

  /** How many slots are valid. */
  function CountValid(slots: seq<SlotCallback>): nat
    reads slots
  {
    if slots == [] then 0
    else CountValid(slots[..|slots| - 1]) + (if slots[|slots| - 1].valid then 1 else 0)
  }

  /** The callbacks that an invocation over `slots` fires, in list order. */
  function Fired(slots: seq<SlotCallback>): (r: seq<Callback>)
    reads slots
    ensures |r| <= |slots|
  {
    if slots == [] then []
    else
      var last := slots[|slots| - 1];
      Fired(slots[..|slots| - 1]) + (if last.valid && last.enabled then [last.callback] else [])
  }

  /** Every slot kept by the purge is valid, and exactly the valid slots are kept. */
  lemma {:induction false} ValidSlotsMembers(slots: seq<SlotCallback>)
    ensures forall k :: 0 <= k < |ValidSlots(slots)| ==> ValidSlots(slots)[k].valid
    ensures forall x :: x in ValidSlots(slots) <==> x in slots && x.valid
  {
    if slots != [] {
      ValidSlotsMembers(slots[..|slots| - 1]);
      assert slots == slots[..|slots| - 1] + [slots[|slots| - 1]];
    }
  }

  /** The purge leaves as many slots as there are valid ones. */
  lemma {:induction false} ValidSlotsLength(slots: seq<SlotCallback>)
    ensures |ValidSlots(slots)| == CountValid(slots)
    ensures CountValid(slots) == |slots| <==> forall k :: 0 <= k < |slots| ==> slots[k].valid
  {
    if slots != [] {
      var init := slots[..|slots| - 1];
      ValidSlotsLength(init);
      assert CountValid(init) <= |init| by { ValidSlotsLength(init); }
      forall k | 0 <= k < |init| ensures init[k] == slots[k] { }
    }
  }

  /** The purge distributes over concatenation, so the relative order of the kept slots is the original one. */
  lemma {:induction false} ValidSlotsAppend(a: seq<SlotCallback>, b: seq<SlotCallback>)
    ensures ValidSlots(a + b) == ValidSlots(a) + ValidSlots(b)
  {
    if b != [] {
      var b' := b[..|b| - 1];
      assert (a + b)[..|a + b| - 1] == a + b';
      ValidSlotsAppend(a, b');
    } else {
      assert a + b == a;
    }
  }

  /** Invocation distributes over concatenation: callbacks fire in list order. */
  lemma {:induction false} FiredAppend(a: seq<SlotCallback>, b: seq<SlotCallback>)
    ensures Fired(a + b) == Fired(a) + Fired(b)
  {
    if b != [] {
      var b' := b[..|b| - 1];
      assert (a + b)[..|a + b| - 1] == a + b';
      FiredAppend(a, b');
    } else {
      assert a + b == a;
    }
  }

  /** A callback fires exactly when some slot carrying it is both valid and enabled. */
  lemma {:induction false} FiredMembers(slots: seq<SlotCallback>, c: Callback)
    ensures c in Fired(slots) <==> exists k :: 0 <= k < |slots| && slots[k].valid && slots[k].enabled && slots[k].callback == c
  {
    if slots != [] {
      var init := slots[..|slots| - 1];
      FiredMembers(init, c);
      forall k | 0 <= k < |init| ensures init[k] == slots[k] { }
    }
  }

  /** Purging never changes what an invocation fires. */
  lemma {:induction false} FiredIgnoresPurge(slots: seq<SlotCallback>)
    ensures Fired(ValidSlots(slots)) == Fired(slots)
  {
    if slots != [] {
      var init := slots[..|slots| - 1];
      var last := slots[|slots| - 1];
      FiredIgnoresPurge(init);
      FiredAppend(ValidSlots(init), if last.valid then [last] else []);
      assert [last][..0] == [];
    }
  }

  /** Purging twice is the same as purging once. */
  lemma {:induction false} ValidSlotsIdempotent(slots: seq<SlotCallback>)
    ensures ValidSlots(ValidSlots(slots)) == ValidSlots(slots)
  {
    if slots != [] {
      var init := slots[..|slots| - 1];
      var last := slots[|slots| - 1];
      ValidSlotsIdempotent(init);
      ValidSlotsAppend(ValidSlots(init), if last.valid then [last] else []);
      assert [last][..0] == [];
    }
  }

  /**
   * A signal. Copies share one implementation object, so whatever is
   * connected through one copy is seen by every other.
   */
  class Signal {
    const impl: SignalImpl

    constructor()
      ensures fresh(impl) && impl.connectedSlots == []
    {
      impl := new SignalImpl();
    }

    /** The copy constructor: the copy refers to the same implementation. */
    constructor Copy(copy: Signal)
      ensures impl == copy.impl
    {
      impl := copy.impl;
    }

    /**
     * Erases every invalid slot in place. The index and the size are of an
     * unsigned type: an erase at index 0 makes `i--` wrap to the largest
     * value, and the loop's `i++` wraps it back to 0.
     */
    method CleanUp()
      requires |impl.connectedSlots| < SizeTypeModulus
      modifies impl
      ensures impl.connectedSlots == ValidSlots(old(impl.connectedSlots))
    {
      ghost var original := impl.connectedSlots;
      ghost var removed := 0;
      var i, size := 0, |impl.connectedSlots|;
      while i < size
        invariant 0 <= i <= size == |impl.connectedSlots| < SizeTypeModulus
        invariant size + removed == |original|
        invariant impl.connectedSlots[..i] == ValidSlots(original[..i + removed])
        invariant impl.connectedSlots[i..] == original[i + removed..]
        decreases size - i
      {
        assert original[..i + removed + 1][..i + removed] == original[..i + removed];
        assert original[i + removed] == impl.connectedSlots[i];
        if !impl.connectedSlots[i].valid {
          impl.connectedSlots := impl.connectedSlots[..i] + impl.connectedSlots[i + 1..];
          i := SizeDecrement(i);
          size := size - 1;
          removed := removed + 1;
        } else {
          assert impl.connectedSlots[..i + 1] == impl.connectedSlots[..i] + [impl.connectedSlots[i]];
        }
        i := SizeIncrement(i);
      }
      assert impl.connectedSlots[..i] == impl.connectedSlots;
      assert original[..i + removed] == original;
    }

    /** Purges invalid slots, then appends one new valid, enabled slot for `callback` and returns it. */
    method Connect(callback: Callback) returns (slot: SlotCallback)
      requires |impl.connectedSlots| < SizeTypeModulus
      modifies impl
      ensures fresh(slot) && slot.callback == callback && slot.valid && slot.enabled
      ensures impl.connectedSlots == ValidSlots(old(impl.connectedSlots)) + [slot]
    {
      CleanUp();
      slot := new SlotCallback(callback);
      impl.connectedSlots := impl.connectedSlots + [slot];
    }

    /** Walks a copy of the slot list and fires the slots that are valid and enabled, in order. */
    method Invoke() returns (fired: seq<Callback>)
      ensures fired == Fired(impl.connectedSlots)
    {
      var callbacks := impl.connectedSlots;
      var i, size := 0, |callbacks|;
      fired := [];
      while i < size
        invariant 0 <= i <= size == |callbacks|
        invariant fired == Fired(callbacks[..i])
      {
        assert callbacks[..i + 1][..i] == callbacks[..i];
        if callbacks[i].valid && callbacks[i].enabled {
          fired := fired + [callbacks[i].callback];
        }
        i := i + 1;
      }
      assert callbacks[..i] == callbacks;
    }
  }

  /**
   * Connecting through a copy is seen by the original: its next invocation
   * fires what it fired before, then the new callback.
   */
  method ConnectThroughCopy(original: Signal, callback: Callback) returns (fired: seq<Callback>)
    requires |original.impl.connectedSlots| < SizeTypeModulus
    modifies original.impl
    ensures fired == old(Fired(original.impl.connectedSlots)) + [callback]
  {
    ghost var before := original.impl.connectedSlots;
    var copy := new Signal.Copy(original);
    var slot := copy.Connect(callback);
    fired := original.Invoke();
    FiredAppend(ValidSlots(before), [slot]);
    FiredIgnoresPurge(before);
    assert [slot][..0] == [];
  }
}
