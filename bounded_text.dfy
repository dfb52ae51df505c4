/**
 * The bounded append rule shared by the C JSON writers (`jsonify_core_snprintf`,
 * `str_buffer_state_snprintf` and its older copy): a formatted fragment is appended only when it
 * fits with room left for the terminating NUL; otherwise `vsnprintf` leaves a truncated copy after
 * the committed text and the remaining room drops to 0, after which every write is a no-op.
 */
module BoundedText {
  /**
   * What a writer holds: the committed text (`buf[..bufIdx]`), the room left (`remBufLen`) and the
   * truncated fragment an overflowing write left after the committed text.
   */
  datatype Sink = Sink(text: string, rem: nat, spill: string)

  predicate NoNul(s: string) { forall i | 0 <= i < |s| :: s[i] != '\0' }

  /** One `..._snprintf` call with an already formatted fragment. */
  function Put(s: Sink, frag: string): (r: Sink)
  {
    if s.rem == 0 then s
    else if |frag| >= s.rem then Sink(s.text, 0, frag[..s.rem - 1])
    else Sink(s.text + frag, s.rem - |frag|, "")
  }

  /** What that call returns: 0 once full, otherwise the full formatted length, fitting or not. */
  function Returned(s: Sink, frag: string): (n: nat)
  {
    if s.rem == 0 then 0 else |frag|
  }

  /** Several calls in order. */
  function PutAll(s: Sink, frags: seq<string>): Sink
  {
    if frags == [] then s else Put(PutAll(s, frags[..|frags| - 1]), frags[|frags| - 1])
  }

  /** The sum of their return values, as the writers accumulate it in `total`. */
  function ReturnedAll(s: Sink, frags: seq<string>): nat
  {
    if frags == [] then 0
    else ReturnedAll(s, frags[..|frags| - 1]) + Returned(PutAll(s, frags[..|frags| - 1]), frags[|frags| - 1])
  }

  function Concat(frags: seq<string>): string
  {
    if frags == [] then [] else Concat(frags[..|frags| - 1]) + frags[|frags| - 1]
  }

  lemma ConcatSingle(frag: string)
    ensures Concat([frag]) == frag
  {
    assert [frag][..0] == [];
  }

  lemma {:induction false} ConcatAppend(a: seq<string>, b: seq<string>)
    ensures Concat(a + b) == Concat(a) + Concat(b)
    decreases |b|
  {
    if b == [] {
      assert a + b == a;
    } else {
      var init, last := b[..|b| - 1], b[|b| - 1];
      var ab := a + b;
      assert ab[..|ab| - 1] == a + init;
      assert ab[|ab| - 1] == last;
      ConcatAppend(a, init);
      assert Concat(ab) == Concat(a + init) + last;
      assert Concat(b) == Concat(init) + last;
      assert (Concat(a) + Concat(init)) + last == Concat(a) + (Concat(init) + last);
    }
  }

  lemma PutAllAppend(s: Sink, a: seq<string>, b: seq<string>)
    ensures PutAll(s, a + b) == PutAll(PutAll(s, a), b)
    ensures ReturnedAll(s, a + b) == ReturnedAll(s, a) + ReturnedAll(PutAll(s, a), b)
    decreases |b|
  {
    if b == [] {
      assert a + b == a;
    } else {
      PutAllAppend(s, a, b[..|b| - 1]);
      assert (a + b)[..|a + b| - 1] == a + b[..|b| - 1];
    }
  }

  /** One more call after several. */
  lemma PutAllSnoc(s: Sink, frags: seq<string>, frag: string)
    ensures PutAll(s, frags + [frag]) == Put(PutAll(s, frags), frag)
    ensures ReturnedAll(s, frags + [frag]) == ReturnedAll(s, frags) + Returned(PutAll(s, frags), frag)
  {
    assert (frags + [frag])[..|frags|] == frags;
  }

  /** Fragments that together leave room to spare are all appended and counted in full. */
  lemma {:induction false} PutAllFits(s: Sink, frags: seq<string>)
    requires |Concat(frags)| < s.rem
    ensures PutAll(s, frags).text == s.text + Concat(frags)
    ensures PutAll(s, frags).rem == s.rem - |Concat(frags)|
    ensures ReturnedAll(s, frags) == |Concat(frags)|
  {
    if frags != [] {
      var init := frags[..|frags| - 1];
      PutAllFits(s, init);
    }
  }

  /** Fragments that need all the room, or more, overflow it: the room drops to 0. */
  lemma {:induction false} PutAllOverflows(s: Sink, frags: seq<string>)
    requires 0 < s.rem <= |Concat(frags)|
    ensures PutAll(s, frags).rem == 0
  {
    var init := frags[..|frags| - 1];
    if |Concat(init)| < s.rem {
      PutAllFits(s, init);
    } else {
      PutAllOverflows(s, init);
    }
  }

  /** Once the room is 0 every write is a no-op returning 0. */
  lemma {:induction false} PutAllLatched(s: Sink, frags: seq<string>)
    requires s.rem == 0
    ensures PutAll(s, frags) == s && ReturnedAll(s, frags) == 0
  {
    if frags != [] {
      PutAllLatched(s, frags[..|frags| - 1]);
    }
  }

  /**
   * The committed text only ever grows by whole fragments; while room is left every fragment so
   * far is committed and the committed length plus the room is constant.
   */
  lemma {:induction false} PutAllWholeFragments(s: Sink, frags: seq<string>)
    ensures PutAll(s, frags).rem > 0 ==>
      PutAll(s, frags).text == s.text + Concat(frags)
      && |PutAll(s, frags).text| + PutAll(s, frags).rem == |s.text| + s.rem
    ensures exists k | 0 <= k <= |frags| :: PutAll(s, frags).text == s.text + Concat(frags[..k])
  {
    if frags == [] {
      assert s.text == s.text + Concat(frags[..0]);
    } else {
      var init := frags[..|frags| - 1];
      var last := frags[|frags| - 1];
      PutAllWholeFragments(s, init);
      var mid := PutAll(s, init);
      assert frags[..|frags|] == frags;
      if mid.rem == 0 {
        var k :| 0 <= k <= |init| && mid.text == s.text + Concat(init[..k]);
        assert init[..k] == frags[..k];
      } else if |last| >= mid.rem {
        assert frags[..|init|] == init;
      }
    }
  }

  /**
   * Starting without a truncated fragment, what the buffer shows (committed text and truncated
   * fragment) is always a prefix of the full text the calls meant to write.
   */
  lemma {:induction false} PutAllPrefix(s: Sink, frags: seq<string>)
    requires s.spill == []
    ensures PutAll(s, frags).rem > 0 ==> PutAll(s, frags).spill == []
    ensures PutAll(s, frags).text + PutAll(s, frags).spill <= s.text + Concat(frags)
  {
    if frags == [] {
      assert s.text + [] == s.text;
    } else {
      var init := frags[..|frags| - 1];
      var last := frags[|frags| - 1];
      PutAllPrefix(s, init);
      PutAllWholeFragments(s, init);
      var mid := PutAll(s, init);
      assert s.text + Concat(frags) == s.text + Concat(init) + last;
      if mid.rem > 0 && |last| >= mid.rem {
        assert last[..mid.rem - 1] <= last;
      }
    }
  }
}
