/** The growing text buffer under the response printer, and exactly when its `printf` returns. */
module DynamicStrings {

  // The growth loop, on numbers: `total` is the size the buffer would have with the new text in it.

  /** The capacity that a failed attempt asks for. */
  function Grown(capacity: nat, total: nat): nat {
    if total < capacity * 2 && capacity <= 512 then capacity * 2 else total
  }

  /** The capacity before attempt number `k`, if every attempt before it has failed. */
  function CapacityAt(capacity: nat, total: nat, k: nat): nat {
    if k == 0 then capacity else Grown(CapacityAt(capacity, total, k - 1), total)
  }

  /** The text and its terminating zero fit. */
  predicate Fits(capacity: nat, total: nat) {
    total < capacity
  }

  predicate Returns(capacity: nat, total: nat) {
    total < capacity || (capacity <= 512 && (total < 2 * capacity || 0 < total <= 512))
  }

  /** `printf` returns if and only if `Returns` holds before the call: then an attempt succeeds after at
      most two resizes, and otherwise every attempt of the endless loop fails. */
  lemma {:induction false} GrowthExact(capacity: nat, total: nat)
    ensures Returns(capacity, total) <==> exists k: nat :: Fits(CapacityAt(capacity, total, k), total)
    ensures Returns(capacity, total) ==> Fits(CapacityAt(capacity, total, Resizes(capacity, total)), total)
  {
    var c1 := CapacityAt(capacity, total, 1);
    assert c1 == Grown(CapacityAt(capacity, total, 0), total);
    var c2 := CapacityAt(capacity, total, 2);
    assert c2 == Grown(c1, total);
    if Returns(capacity, total) {
      var k := Resizes(capacity, total);
      assert k == 0 || k == 1 || k == 2;
      assert Fits(CapacityAt(capacity, total, k), total);
    } else {
      forall k: nat
        ensures !Fits(CapacityAt(capacity, total, k), total)
      {
        Stuck(capacity, total, k);
      }
    }
  }

  /** Once the loop asks for exactly `total`, and that is too much to be doubled, it asks for it forever. */
  lemma {:induction false} Stuck(capacity: nat, total: nat, k: nat)
    requires !Returns(capacity, total)
    ensures CapacityAt(capacity, total, k) == if k == 0 then capacity else total
    ensures !Fits(CapacityAt(capacity, total, k), total)
  {
    if k > 0 { Stuck(capacity, total, k - 1); }
  }

  function Resizes(capacity: nat, total: nat): nat {
    if total < capacity then 0 else if total < 2 * capacity && capacity <= 512 then 1 else 2
  }

  class DynamicString {
    var buffer: array<char>
    var end: nat

    ghost predicate Valid()
      reads this
    {
      end <= buffer.Length
    }

    ghost function Contents(): string
      requires Valid()
      reads this, buffer
    {
      buffer[..end]
    }

    constructor (capacity: nat)
      ensures Valid() && fresh(buffer) && buffer.Length == capacity && Contents() == ""
    {
      buffer := new char[capacity];
      end := 0;
    }

    method Clear()
      requires Valid()
      modifies this`end
      ensures Valid() && Contents() == "" && end == 0
    {
      end := 0;
    }

    /** Takes `count` bytes of the buffer, as they stand, for its contents. */
    method Fill(count: nat)
      requires Valid() && count <= buffer.Length
      modifies this`end
      ensures Valid() && Contents() == buffer[..count]
    {
      end := count;
    }

    method Resize(capacity: nat)
      requires Valid() && capacity > end
      modifies this`buffer
      ensures Valid() && fresh(buffer) && buffer.Length == capacity && Contents() == old(Contents())
    {
      var b := new char[capacity];
      var i := 0;
      while i < end
        invariant 0 <= i <= end && b[..i] == buffer[..i]
        invariant fresh(b) && buffer == old(buffer) && buffer[..] == old(buffer[..])
        modifies b
      {
        b[i] := buffer[i];
        i := i + 1;
      }
      buffer := b;
    }

    /** `snprintf` of `text` after the contents: as much of it as leaves room for a terminating zero. */
    method Attempt(text: string) returns (n: nat)
      requires Valid()
      modifies buffer
      ensures n == |text| && Contents() == old(Contents())
      ensures |text| < buffer.Length - end ==> buffer[..end + |text|] == old(Contents()) + text
    {
      n := |text|;
      var room := buffer.Length - end;
      if room == 0 { return; }
      var w := if |text| < room then |text| else room - 1;
      var i := 0;
      while i < w
        invariant 0 <= i <= w && buffer[..end] == old(buffer[..end]) && buffer[end..end + i] == text[..i]
      {
        buffer[end + i] := text[i];
        i := i + 1;
      }
      buffer[end + w] := 0 as char;
      assert w == |text| ==> buffer[..end + w] == buffer[..end] + buffer[end..end + w];
    }

    /** Appends `text`, growing the buffer as the loop does. */
    method Printf(text: string) returns (n: nat, ghost resizes: nat)
      requires Valid() && Returns(buffer.Length, end + |text|)
      modifies this, buffer
      ensures Valid() && n == |text| && Contents() == old(Contents()) + text
      ensures resizes == Resizes(old(buffer.Length), old(end) + |text|) <= 2
      ensures buffer.Length == CapacityAt(old(buffer.Length), old(end) + |text|, resizes)
      ensures buffer == old(buffer) || fresh(buffer)
    {
      ghost var total := end + |text|;
      resizes := 0;
      n := Attempt(text);
      while n >= buffer.Length - end
        invariant Valid() && end == old(end) && n == |text| && Contents() == old(Contents())
        invariant buffer == old(buffer) || fresh(buffer)
        invariant Returns(buffer.Length, total)
        invariant resizes + Resizes(buffer.Length, total) == Resizes(old(buffer.Length), total)
        invariant buffer.Length == CapacityAt(old(buffer.Length), total, resizes)
        invariant n < buffer.Length - end ==> buffer[..end + n] == old(Contents()) + text
        decreases Resizes(buffer.Length, total)
      {
        var capacity := n + end;
        if capacity < buffer.Length * 2 && buffer.Length <= 512 { capacity := buffer.Length * 2; }
        Resize(capacity);
        resizes := resizes + 1;
        n := Attempt(text);
      }
      end := end + n;
    }
  }
}
