/** What the coincidence processors share: the record of one channel hit (eventProc),
    the split of the raw event into a start and a stop list by channel number, and the
    two rules by which a processor consumes those lists from the front, pairing or
    dropping one front element per round until one list is empty. */
module Coincidence {
  import opened Numbers

  /** One eventProc record: time, energy, slot (the identifier's location) and channel
      number. The energy is an int where the processor truncates it and a double where
      it does not. */
  datatype Hit<E> = Hit(time: real, energy: E, slot: int, channel: int)

  /** A channel of the raw event as the processors read it, energy not yet truncated. */
  type Reading = Hit<real>

  /** What a processor plots: the truncated energies of its start and stop channels and
      one value per coincidence found. */
  datatype Plots = Plots(ch1: seq<int>, ch2: seq<int>, matched: seq<int>)

  /** The readings on channel `ch`, in event order. */
  function Select(rs: seq<Reading>, ch: int): seq<Reading> {
    if rs == [] then []
    else (if rs[0].channel == ch then [rs[0]] else []) + Select(rs[1..], ch)
  }

  /** `a` is `b` with some elements left out, the others kept in order. */
  predicate IsSubseq<T(==)>(a: seq<T>, b: seq<T>)
    decreases |b|
  {
    if a == [] then true
    else if b == [] then false
    else (a[0] == b[0] && IsSubseq(a[1..], b[1..])) || IsSubseq(a, b[1..])
  }

  /** A list is a subsequence of itself. */
  lemma {:induction false} IsSubseqRefl<T>(a: seq<T>)
    ensures IsSubseq(a, a)
    decreases |a|
  {
    if a != [] {
      IsSubseqRefl(a[1..]);
    }
  }

  /** Selection keeps exactly the readings on the channel, in event order. */
  lemma {:induction false} SelectSpec(rs: seq<Reading>, ch: int)
    ensures forall r :: r in Select(rs, ch) <==> r in rs && r.channel == ch
    ensures IsSubseq(Select(rs, ch), rs)
    decreases |rs|
  {
    if rs != [] {
      SelectSpec(rs[1..], ch);
      assert rs == [rs[0]] + rs[1..];
      if rs[0].channel == ch {
        assert Select(rs, ch) == [rs[0]] + Select(rs[1..], ch);
        assert Select(rs, ch)[1..] == Select(rs[1..], ch);
      } else {
        assert Select(rs, ch) == Select(rs[1..], ch);
        SubseqOfTail(Select(rs, ch), rs);
      }
    }
  }

  /** Selecting from a list extended by one reading extends the selection by that
      reading when it is on the channel. */
  lemma {:induction false} SelectSnoc(rs: seq<Reading>, r: Reading, ch: int)
    ensures Select(rs + [r], ch) == Select(rs, ch) + (if r.channel == ch then [r] else [])
    decreases |rs|
  {
    var last := if r.channel == ch then [r] else [];
    if rs == [] {
      assert rs + [r] == [r];
      assert Select([r], ch) == last + Select([], ch);
    } else {
      var head := if rs[0].channel == ch then [rs[0]] else [];
      SelectSnoc(rs[1..], r, ch);
      assert (rs + [r])[0] == rs[0] && (rs + [r])[1..] == rs[1..] + [r];
      assert Select(rs + [r], ch) == head + (Select(rs[1..], ch) + last);
      assert head + (Select(rs[1..], ch) + last) == (head + Select(rs[1..], ch)) + last;
    }
  }

  /** The eventProc record of a processor that truncates the energy to an int. */
  function Truncated(rs: seq<Reading>): (hs: seq<Hit<int>>)
    ensures |hs| == |rs|
    ensures forall k :: 0 <= k < |rs| ==>
              hs[k] == Hit(rs[k].time, Trunc(rs[k].energy), rs[k].slot, rs[k].channel)
  {
    seq(|rs|, k requires 0 <= k < |rs| => Hit(rs[k].time, Trunc(rs[k].energy), rs[k].slot, rs[k].channel))
  }

  function Energies<E>(hs: seq<Hit<E>>): (es: seq<E>)
    ensures |es| == |hs|
    ensures forall k :: 0 <= k < |hs| ==> es[k] == hs[k].energy
  {
    seq(|hs|, k requires 0 <= k < |hs| => hs[k].energy)
  }

  /** The loop that reads the raw event: a hit goes to the start list when its channel is
      ch1 and to the stop list when it is ch2 (both, when ch1 == ch2), and each truncated
      energy is plotted on its channel's histogram. */
  method Partition(event: seq<Reading>, ch1: int, ch2: int)
      returns (data1: seq<Hit<int>>, data2: seq<Hit<int>>, plots1: seq<int>, plots2: seq<int>)
    ensures data1 == Truncated(Select(event, ch1)) && data2 == Truncated(Select(event, ch2))
    ensures plots1 == Energies(data1) && plots2 == Energies(data2)
  {
    data1, data2, plots1, plots2 := [], [], [], [];
    ghost var sel1: seq<Reading> := [];
    ghost var sel2: seq<Reading> := [];
    var i := 0;
    while i < |event|
      invariant 0 <= i <= |event|
      invariant Select(event, ch1) == sel1 + Select(event[i..], ch1)
      invariant Select(event, ch2) == sel2 + Select(event[i..], ch2)
      invariant data1 == Truncated(sel1) && data2 == Truncated(sel2)
      invariant plots1 == Energies(data1) && plots2 == Energies(data2)
    {
      var r := event[i];
      SelectFront(event, i, ch1, sel1);
      SelectFront(event, i, ch2, sel2);
      if r.channel == ch1 {
        var h := Hit(r.time, Trunc(r.energy), r.slot, r.channel);
        TruncatedSnoc(sel1, r);
        data1 := data1 + [h];
        plots1 := plots1 + [h.energy];
        sel1 := sel1 + [r];
      }
      if r.channel == ch2 {
        var h := Hit(r.time, Trunc(r.energy), r.slot, r.channel);
        TruncatedSnoc(sel2, r);
        data2 := data2 + [h];
        plots2 := plots2 + [h.energy];
        sel2 := sel2 + [r];
      }
      i := i + 1;
    }
    assert event[|event|..] == [];
  }

  /** One more reading of the event moves from the unread part to the selection. */
  lemma SelectFront(event: seq<Reading>, i: int, ch: int, sel: seq<Reading>)
    requires 0 <= i < |event|
    requires Select(event, ch) == sel + Select(event[i..], ch)
    ensures Select(event, ch) ==
            (sel + if event[i].channel == ch then [event[i]] else []) + Select(event[i + 1..], ch)
  {
    assert event[i..][0] == event[i] && event[i..][1..] == event[i + 1..];
  }

  /** Truncating one more reading extends the records and their energies by one. */
  lemma TruncatedSnoc(rs: seq<Reading>, r: Reading)
    ensures Truncated(rs + [r]) == Truncated(rs) + [Hit(r.time, Trunc(r.energy), r.slot, r.channel)]
    ensures Energies(Truncated(rs + [r])) == Energies(Truncated(rs)) + [Trunc(r.energy)]
  {
  }

  /** The outcome of consuming two lists from the front: the pairs found, in the order
      found, what is left of each list, and the number of rounds the loop ran. */
  datatype Drain<E> = Drain(pairs: seq<(Hit<E>, Hit<E>)>, rest1: seq<Hit<E>>, rest2: seq<Hit<E>>, rounds: nat)

  /** `found` and `rounds` of earlier rounds followed by the drain `d` of the rest. */
  function Then<E>(found: seq<(Hit<E>, Hit<E>)>, rounds: nat, d: Drain<E>): Drain<E> {
    Drain(found + d.pairs, d.rest1, d.rest2, rounds + d.rounds)
  }

  function Firsts<E>(ps: seq<(Hit<E>, Hit<E>)>): (r: seq<Hit<E>>)
    ensures |r| == |ps|
    ensures forall k :: 0 <= k < |ps| ==> r[k] == ps[k].0
  {
    seq(|ps|, k requires 0 <= k < |ps| => ps[k].0)
  }

  function Seconds<E>(ps: seq<(Hit<E>, Hit<E>)>): (r: seq<Hit<E>>)
    ensures |r| == |ps|
    ensures forall k :: 0 <= k < |ps| ==> r[k] == ps[k].1
  {
    seq(|ps|, k requires 0 <= k < |ps| => ps[k].1)
  }

  /** Two hits are coincident when their times differ by less than the window. */
  predicate Within<E>(a: Hit<E>, b: Hit<E>, window: real) {
    Abs(a.time - b.time) < window
  }

  /** The window rule: coincident fronts are paired and both removed; otherwise the
      strictly earlier front is removed, the stop front when the times are equal. */
  function WindowDrain<E>(s1: seq<Hit<E>>, s2: seq<Hit<E>>, window: real): Drain<E>
    decreases |s1| + |s2|
  {
    if s1 == [] || s2 == [] then Drain([], s1, s2, 0)
    else if Within(s1[0], s2[0], window) then Then([(s1[0], s2[0])], 1, WindowDrain(s1[1..], s2[1..], window))
    else if s1[0].time < s2[0].time then Then([], 1, WindowDrain(s1[1..], s2, window))
    else Then([], 1, WindowDrain(s1, s2[1..], window))
  }

  /** The start-first rule: the fronts are paired and both removed when the start is
      strictly earlier; otherwise only the stop front is removed. */
  function EarlierDrain<E>(s1: seq<Hit<E>>, s2: seq<Hit<E>>): Drain<E>
    decreases |s2|
  {
    if s1 == [] || s2 == [] then Drain([], s1, s2, 0)
    else if s1[0].time < s2[0].time then Then([(s1[0], s2[0])], 1, EarlierDrain(s1[1..], s2[1..]))
    else Then([], 1, EarlierDrain(s1, s2[1..]))
  }

  /** The front-erasing loop of the window rule. */
  method DrainWithinWindow<E>(s1: seq<Hit<E>>, s2: seq<Hit<E>>, window: real) returns (d: Drain<E>)
    ensures d == WindowDrain(s1, s2, window)
  {
    var data1, data2 := s1, s2;
    var pairs: seq<(Hit<E>, Hit<E>)> := [];
    var rounds: nat := 0;
    while |data1| > 0 && |data2| > 0
      invariant WindowDrain(s1, s2, window) == Then(pairs, rounds, WindowDrain(data1, data2, window))
      decreases |data1| + |data2|
    {
      var found: seq<(Hit<E>, Hit<E>)> := [];
      ghost var before := WindowDrain(data1, data2, window);
      if Abs(data1[0].time - data2[0].time) < window {
        found := [(data1[0], data2[0])];
        data1, data2 := data1[1..], data2[1..];
      } else if data1[0].time < data2[0].time {
        data1 := data1[1..];
      } else {
        data2 := data2[1..];
      }
      assert before == Then(found, 1, WindowDrain(data1, data2, window));
      ThenThen(pairs, rounds, found, 1, WindowDrain(data1, data2, window));
      pairs, rounds := pairs + found, rounds + 1;
    }
    d := Drain(pairs, data1, data2, rounds);
  }

  /** The front-erasing loop of the start-first rule. */
  method DrainStartFirst<E>(s1: seq<Hit<E>>, s2: seq<Hit<E>>) returns (d: Drain<E>)
    ensures d == EarlierDrain(s1, s2)
  {
    var data1, data2 := s1, s2;
    var pairs: seq<(Hit<E>, Hit<E>)> := [];
    var rounds: nat := 0;
    while |data1| > 0 && |data2| > 0
      invariant EarlierDrain(s1, s2) == Then(pairs, rounds, EarlierDrain(data1, data2))
      decreases |data2|
    {
      var found: seq<(Hit<E>, Hit<E>)> := [];
      ghost var before := EarlierDrain(data1, data2);
      if data1[0].time < data2[0].time {
        found := [(data1[0], data2[0])];
        data1, data2 := data1[1..], data2[1..];
      } else {
        data2 := data2[1..];
      }
      assert before == Then(found, 1, EarlierDrain(data1, data2));
      ThenThen(pairs, rounds, found, 1, EarlierDrain(data1, data2));
      pairs, rounds := pairs + found, rounds + 1;
    }
    d := Drain(pairs, data1, data2, rounds);
  }

  /** Under the window rule the loop ends when one list is empty, and what is left of
      each list is a suffix of it. */
  lemma {:induction false} WindowDrainEnds<E>(s1: seq<Hit<E>>, s2: seq<Hit<E>>, window: real)
    ensures var d := WindowDrain(s1, s2, window);
            && (d.rest1 == [] || d.rest2 == [])
            && |d.rest1| <= |s1| && d.rest1 == s1[|s1| - |d.rest1|..]
            && |d.rest2| <= |s2| && d.rest2 == s2[|s2| - |d.rest2|..]
    decreases |s1| + |s2|
  {
    if s1 != [] && s2 != [] {
      if Within(s1[0], s2[0], window) {
        var d' := WindowDrain(s1[1..], s2[1..], window);
        WindowDrainEnds(s1[1..], s2[1..], window);
        SuffixOfTail(s1, d'.rest1);
        SuffixOfTail(s2, d'.rest2);
        assert WindowDrain(s1, s2, window) == Then([(s1[0], s2[0])], 1, d');
      } else if s1[0].time < s2[0].time {
        var d' := WindowDrain(s1[1..], s2, window);
        WindowDrainEnds(s1[1..], s2, window);
        SuffixOfTail(s1, d'.rest1);
        assert WindowDrain(s1, s2, window) == Then([], 1, d');
      } else {
        var d' := WindowDrain(s1, s2[1..], window);
        WindowDrainEnds(s1, s2[1..], window);
        SuffixOfTail(s2, d'.rest2);
        assert WindowDrain(s1, s2, window) == Then([], 1, d');
      }
    }
  }

  /** Every round of the window rule removes one front element, or two when it pairs
      them: there are at most as many pairs as hits consumed from either list. */
  lemma {:induction false} WindowDrainCounts<E>(s1: seq<Hit<E>>, s2: seq<Hit<E>>, window: real)
    ensures var d := WindowDrain(s1, s2, window);
            && d.rounds + |d.pairs| == |s1| + |s2| - |d.rest1| - |d.rest2|
            && |d.pairs| <= |s1| - |d.rest1| && |d.pairs| <= |s2| - |d.rest2|
            && d.rounds <= |s1| + |s2|
    decreases |s1| + |s2|
  {
    if s1 != [] && s2 != [] {
      if Within(s1[0], s2[0], window) {
        WindowDrainCounts(s1[1..], s2[1..], window);
      } else if s1[0].time < s2[0].time {
        WindowDrainCounts(s1[1..], s2, window);
      } else {
        WindowDrainCounts(s1, s2[1..], window);
      }
    }
  }

  /** Every pair is coincident, and the pairs take their start hits from s1 and their
      stop hits from s2 in list order. */
  lemma {:induction false} WindowDrainPairs<E>(s1: seq<Hit<E>>, s2: seq<Hit<E>>, window: real)
    ensures var ps := WindowDrain(s1, s2, window).pairs;
            && (forall k :: 0 <= k < |ps| ==> Within(ps[k].0, ps[k].1, window))
            && IsSubseq(Firsts(ps), s1) && IsSubseq(Seconds(ps), s2)
    decreases |s1| + |s2|
  {
    var ps := WindowDrain(s1, s2, window).pairs;
    if s1 != [] && s2 != [] {
      if Within(s1[0], s2[0], window) {
        WindowDrainPairs(s1[1..], s2[1..], window);
        var rest := WindowDrain(s1[1..], s2[1..], window).pairs;
        assert Firsts(ps)[1..] == Firsts(rest);
        assert Seconds(ps)[1..] == Seconds(rest);
      } else if s1[0].time < s2[0].time {
        WindowDrainPairs(s1[1..], s2, window);
        assert ps == WindowDrain(s1[1..], s2, window).pairs;
        SubseqOfTail(Firsts(ps), s1);
      } else {
        WindowDrainPairs(s1, s2[1..], window);
        assert ps == WindowDrain(s1, s2[1..], window).pairs;
        SubseqOfTail(Seconds(ps), s2);
      }
    }
  }

  /** A subsequence of the tail is a subsequence of the whole list. */
  lemma SubseqOfTail<T>(a: seq<T>, b: seq<T>)
    requires b != [] && IsSubseq(a, b[1..])
    ensures IsSubseq(a, b)
  {
  }

  /** Rounds taken one after the other. */
  lemma ThenThen<E>(p: seq<(Hit<E>, Hit<E>)>, r: nat, q: seq<(Hit<E>, Hit<E>)>, t: nat, d: Drain<E>)
    ensures Then(p, r, Then(q, t, d)) == Then(p + q, r + t, d)
  {
    assert p + (q + d.pairs) == (p + q) + d.pairs;
  }

  /** Consuming a list against itself with a positive window pairs every hit with itself
      and leaves nothing over. */
  lemma {:induction false} WindowDrainSameList<E>(s: seq<Hit<E>>, window: real)
    requires window > 0.0
    ensures var d := WindowDrain(s, s, window);
            Firsts(d.pairs) == s && Seconds(d.pairs) == s && d.rest1 == [] && d.rest2 == []
    decreases |s|
  {
    if s != [] {
      WindowDrainSameList(s[1..], window);
      var ps := WindowDrain(s, s, window).pairs;
      var rest := WindowDrain(s[1..], s[1..], window).pairs;
      assert ps == [(s[0], s[0])] + rest;
      assert Firsts(ps) == [s[0]] + Firsts(rest);
      assert Seconds(ps) == [s[0]] + Seconds(rest);
    }
  }

  /** Under the start-first rule the loop ends when one list is empty, and what is left
      of each list is a suffix of it. */
  lemma {:induction false} EarlierDrainEnds<E>(s1: seq<Hit<E>>, s2: seq<Hit<E>>)
    ensures var d := EarlierDrain(s1, s2);
            && (d.rest1 == [] || d.rest2 == [])
            && |d.rest1| <= |s1| && d.rest1 == s1[|s1| - |d.rest1|..]
            && |d.rest2| <= |s2| && d.rest2 == s2[|s2| - |d.rest2|..]
    decreases |s2|
  {
    if s1 != [] && s2 != [] {
      if s1[0].time < s2[0].time {
        var d' := EarlierDrain(s1[1..], s2[1..]);
        EarlierDrainEnds(s1[1..], s2[1..]);
        SuffixOfTail(s1, d'.rest1);
        SuffixOfTail(s2, d'.rest2);
        assert EarlierDrain(s1, s2) == Then([(s1[0], s2[0])], 1, d');
      } else {
        var d' := EarlierDrain(s1, s2[1..]);
        EarlierDrainEnds(s1, s2[1..]);
        SuffixOfTail(s2, d'.rest2);
        assert EarlierDrain(s1, s2) == Then([], 1, d');
      }
    }
  }

  /** Under the start-first rule every round removes one stop hit and every pair one
      start hit, so there are at most as many pairs as stop hits. */
  lemma {:induction false} EarlierDrainCounts<E>(s1: seq<Hit<E>>, s2: seq<Hit<E>>)
    ensures var d := EarlierDrain(s1, s2);
            && d.rounds == |s2| - |d.rest2|
            && |d.pairs| == |s1| - |d.rest1|
            && |d.pairs| <= d.rounds
    decreases |s2|
  {
    if s1 != [] && s2 != [] {
      if s1[0].time < s2[0].time {
        EarlierDrainCounts(s1[1..], s2[1..]);
      } else {
        EarlierDrainCounts(s1, s2[1..]);
      }
    }
  }

  /** A suffix of the tail of a list is a suffix of the list. */
  lemma SuffixOfTail<T>(s: seq<T>, r: seq<T>)
    requires s != [] && |r| <= |s| - 1 && r == s[1..][|s| - 1 - |r|..]
    ensures r == s[|s| - |r|..]
  {
  }

  /** Under the start-first rule every start hit is strictly earlier than the stop hit it
      is paired with. */
  lemma {:induction false} EarlierDrainForward<E>(s1: seq<Hit<E>>, s2: seq<Hit<E>>)
    ensures forall k :: 0 <= k < |EarlierDrain(s1, s2).pairs| ==>
              EarlierDrain(s1, s2).pairs[k].0.time < EarlierDrain(s1, s2).pairs[k].1.time
    decreases |s2|
  {
    if s1 != [] && s2 != [] {
      if s1[0].time < s2[0].time {
        EarlierDrainForward(s1[1..], s2[1..]);
        var ps := EarlierDrain(s1, s2).pairs;
        var ps' := EarlierDrain(s1[1..], s2[1..]).pairs;
        assert ps == [(s1[0], s2[0])] + ps';
        forall k | 0 <= k < |ps|
          ensures ps[k].0.time < ps[k].1.time
        {
          if k > 0 {
            assert ps[k] == ps'[k - 1];
          }
        }
      } else {
        EarlierDrainForward(s1, s2[1..]);
        assert EarlierDrain(s1, s2).pairs == EarlierDrain(s1, s2[1..]).pairs;
      }
    }
  }

  /** The start-first rule pairs start hits in the order of s1 with stop hits in the
      order of s2. */
  lemma {:induction false} EarlierDrainInOrder<E>(s1: seq<Hit<E>>, s2: seq<Hit<E>>)
    ensures var ps := EarlierDrain(s1, s2).pairs;
            IsSubseq(Firsts(ps), s1) && IsSubseq(Seconds(ps), s2)
    decreases |s2|
  {
    var ps := EarlierDrain(s1, s2).pairs;
    if s1 != [] && s2 != [] {
      if s1[0].time < s2[0].time {
        EarlierDrainInOrder(s1[1..], s2[1..]);
        var rest := EarlierDrain(s1[1..], s2[1..]).pairs;
        assert Firsts(ps)[1..] == Firsts(rest);
        assert Seconds(ps)[1..] == Seconds(rest);
      } else {
        EarlierDrainInOrder(s1, s2[1..]);
        assert ps == EarlierDrain(s1, s2[1..]).pairs;
        SubseqOfTail(Seconds(ps), s2);
      }
    }
  }

  /** Where the k-th pair of the window rule comes from: a start hit s1[i] and a stop hit
      s2[j] within the window of each other. */
  lemma WindowDrainPairOrigin<E>(s1: seq<Hit<E>>, s2: seq<Hit<E>>, window: real, k: int) returns (i: int, j: int)
    requires 0 <= k < |WindowDrain(s1, s2, window).pairs|
    ensures 0 <= i < |s1| && 0 <= j < |s2|
    ensures WindowDrain(s1, s2, window).pairs[k] == (s1[i], s2[j]) && Within(s1[i], s2[j], window)
  {
    var ps := WindowDrain(s1, s2, window).pairs;
    WindowDrainPairs(s1, s2, window);
    SubseqMember(Firsts(ps), s1, k);
    SubseqMember(Seconds(ps), s2, k);
    i :| 0 <= i < |s1| && s1[i] == ps[k].0;
    j :| 0 <= j < |s2| && s2[j] == ps[k].1;
  }

  /** Every element of a subsequence is an element of the list. */
  lemma {:induction false} SubseqMember<T>(a: seq<T>, b: seq<T>, k: int)
    requires IsSubseq(a, b) && 0 <= k < |a|
    ensures exists i :: 0 <= i < |b| && b[i] == a[k]
    decreases |b|
  {
    if a[0] == b[0] && IsSubseq(a[1..], b[1..]) {
      if k > 0 {
        SubseqMember(a[1..], b[1..], k - 1);
        var i :| 0 <= i < |b[1..]| && b[1..][i] == a[1..][k - 1];
        assert b[i + 1] == a[k];
      } else {
        assert b[0] == a[k];
      }
    } else {
      SubseqMember(a, b[1..], k);
      var i :| 0 <= i < |b[1..]| && b[1..][i] == a[k];
      assert b[i + 1] == a[k];
    }
  }

  /** Where the k-th pair of the start-first rule comes from: a start hit s1[i] strictly
      before a stop hit s2[j]. */
  lemma EarlierDrainPairOrigin<E>(s1: seq<Hit<E>>, s2: seq<Hit<E>>, k: int) returns (i: int, j: int)
    requires 0 <= k < |EarlierDrain(s1, s2).pairs|
    ensures 0 <= i < |s1| && 0 <= j < |s2|
    ensures EarlierDrain(s1, s2).pairs[k] == (s1[i], s2[j]) && s1[i].time < s2[j].time
  {
    var ps := EarlierDrain(s1, s2).pairs;
    EarlierDrainForward(s1, s2);
    EarlierDrainInOrder(s1, s2);
    SubseqMember(Firsts(ps), s1, k);
    SubseqMember(Seconds(ps), s2, k);
    i :| 0 <= i < |s1| && s1[i] == ps[k].0;
    j :| 0 <= j < |s2| && s2[j] == ps[k].1;
  }
}
