/**
 The agent loop: assembling streamed tool calls from interleaved fragments, running them, and the
 transcript the next model call is given.
 */
module ToolCalls {
  import opened Prelude
  import SpeechText

  // A piece of one tool call; the parts a piece does not carry are empty.
  datatype Fragment = Fragment(index: int, id: string, name: string, arguments: string)

  datatype Delta = Delta(content: string, fragments: seq<Fragment>)

  datatype Call = Call(id: string, name: string, arguments: string)

  // ------------------------------------------------------------------
  // What a stream says, apart from its order across indexes
  // ------------------------------------------------------------------

  function Content(stream: seq<Delta>): string {
    if stream == [] then "" else stream[0].content + Content(stream[1..])
  }

  function Fragments(stream: seq<Delta>): seq<Fragment> {
    if stream == [] then [] else stream[0].fragments + Fragments(stream[1..])
  }

  // Text and fragments are those of the pieces, in the order they came in.
  lemma {:induction false} StreamJoin(a: seq<Delta>, b: seq<Delta>)
    ensures Content(a + b) == Content(a) + Content(b) && Fragments(a + b) == Fragments(a) + Fragments(b)
    ensures forall d :: Content([d]) == d.content && Fragments([d]) == d.fragments
  {
    if a == [] {
      assert a + b == b;
    } else {
      StreamJoin(a[1..], b);
      assert (a + b)[0] == a[0] && (a + b)[1..] == a[1..] + b;
    }
    forall d: Delta
      ensures Content([d]) == d.content && Fragments([d]) == d.fragments
    {
      assert [d][1..] == [];
    }
  }

  // The fragments of one index, in order.
  function Only(fragments: seq<Fragment>, index: int): seq<Fragment> {
    if fragments == [] then []
    else if fragments[0].index == index then [fragments[0]] + Only(fragments[1..], index)
    else Only(fragments[1..], index)
  }

  function Joined(fragments: seq<Fragment>): Call {
    if fragments == [] then Call("", "", "")
    else
      var f, rest := fragments[0], Joined(fragments[1..]);
      Call(f.id + rest.id, f.name + rest.name, f.arguments + rest.arguments)
  }

  function CallAt(fragments: seq<Fragment>, index: int): Call {
    Joined(Only(fragments, index))
  }

  function Indexes(fragments: seq<Fragment>): set<int> {
    set f | f in fragments :: f.index
  }

  lemma HasMember(keys: set<int>)
    ensures keys == {} || exists k :: k in keys
  {
    if forall k :: k !in keys {
      assert keys == {};
    }
  }

  ghost function Least(keys: set<int>): (least: int)
    requires keys != {}
    ensures least in keys && forall j :: j in keys ==> least <= j
    decreases |keys|
  {
    HasMember(keys);
    var k :| k in keys;
    var others := keys - {k};
    if others == {} then
      assert keys == {k};
      k
    else
      assert forall j :: j in keys ==> j == k || j in others;
      if Least(others) < k then Least(others) else k
  }

  ghost function Ascending(keys: set<int>): (order: seq<int>)
    ensures |order| == |keys|
    decreases |keys|
  {
    if keys == {} then [] else [Least(keys)] + Ascending(keys - {Least(keys)})
  }

  ghost function InOrder(fragments: seq<Fragment>, order: seq<int>): (calls: seq<Call>)
    ensures |calls| == |order|
    ensures forall i :: 0 <= i < |order| ==> calls[i] == CallAt(fragments, order[i])
  {
    seq(|order|, i requires 0 <= i < |order| => CallAt(fragments, order[i]))
  }

  // The tool calls of a stream: one per index, in index order.
  ghost function CallsOf(stream: seq<Delta>): seq<Call> {
    InOrder(Fragments(stream), Ascending(Indexes(Fragments(stream))))
  }

  // The calls do not depend on how the fragments of different indexes are interleaved.
  lemma InterleavingDoesNotMatter(a: seq<Delta>, b: seq<Delta>)
    requires forall index :: Only(Fragments(a), index) == Only(Fragments(b), index)
    ensures CallsOf(a) == CallsOf(b)
  {
    var f, g := Fragments(a), Fragments(b);
    forall index
      ensures index in Indexes(f) <==> index in Indexes(g)
    {
      OnlyWhenPresent(f, index);
      OnlyWhenPresent(g, index);
    }
    assert Indexes(f) == Indexes(g);
    assert InOrder(f, Ascending(Indexes(f))) == InOrder(g, Ascending(Indexes(g)));
  }

  lemma {:induction false} OnlyWhenPresent(fragments: seq<Fragment>, index: int)
    ensures Only(fragments, index) != [] <==> index in Indexes(fragments)
  {
    if fragments != [] {
      OnlyWhenPresent(fragments[1..], index);
      assert forall f :: f in fragments <==> f == fragments[0] || f in fragments[1..];
    }
  }

  ghost predicate Sorted(order: seq<int>) {
    forall i, j :: 0 <= i < j < |order| ==> order[i] < order[j]
  }

  lemma ConsSorted(least: int, rest: seq<int>)
    requires Sorted(rest) && forall k :: k in rest ==> least < k
    ensures Sorted([least] + rest)
    ensures forall k :: k in [least] + rest <==> k == least || k in rest
  {
    assert forall i :: 0 <= i < |rest| ==> rest[i] in rest;
  }

  // Each index once, smallest first; and no other order is like that.
  lemma {:induction false} AscendingIsSorted(keys: set<int>)
    ensures Sorted(Ascending(keys))
    ensures forall k :: k in Ascending(keys) <==> k in keys
    decreases |keys|
  {
    if keys != {} {
      AscendingIsSorted(keys - {Least(keys)});
      ConsSorted(Least(keys), Ascending(keys - {Least(keys)}));
    }
  }

  // The calls of a stream are one per index that occurs in it, by ascending index, each put together from the fragments
  // of its index.
  lemma CallsInIndexOrder(stream: seq<Delta>) returns (order: seq<int>)
    ensures Sorted(order) && forall k :: k in order <==> exists f :: f in Fragments(stream) && f.index == k
    ensures |CallsOf(stream)| == |order|
    ensures forall i :: 0 <= i < |order| ==> CallsOf(stream)[i] == CallAt(Fragments(stream), order[i])
  {
    order := Ascending(Indexes(Fragments(stream)));
    AscendingIsSorted(Indexes(Fragments(stream)));
  }

  lemma RestOfSorted(order: seq<int>)
    requires order != [] && Sorted(order)
    ensures Sorted(order[1..]) && forall k :: k in order[1..] <==> k in order && k != order[0]
  {
    assert order == [order[0]] + order[1..];
  }

  lemma NoMembers(keys: set<int>)
    requires forall k :: k !in keys
    ensures keys == {}
  {
    HasMember(keys);
  }

  lemma HeadIsLeast(order: seq<int>, keys: set<int>)
    requires order != [] && Sorted(order) && forall k :: k in order <==> k in keys
    ensures keys != {} && Least(keys) == order[0]
  {
    assert order[0] in order;
    var least := Least(keys);
    assert least in order;
  }

  lemma Uncons(order: seq<int>)
    requires order != []
    ensures order == [order[0]] + order[1..]
  {
  }

  lemma {:induction false} SortedIsAscending(order: seq<int>, keys: set<int>)
    requires Sorted(order) && forall k :: k in order <==> k in keys
    ensures order == Ascending(keys)
    decreases |order|
  {
    if order == [] {
      NoMembers(keys);
    } else {
      HeadIsLeast(order, keys);
      RestOfSorted(order);
      SortedIsAscending(order[1..], keys - {order[0]});
      Uncons(order);
    }
  }

  // ------------------------------------------------------------------
  // Assembling
  // ------------------------------------------------------------------

  class ToolCallBuffer {
    var id: string
    var name: string
    var arguments: string

    constructor ()
      ensures Value() == Call("", "", "")
    {
      id, name, arguments := "", "", "";
    }

    function Value(): Call
      reads this
    {
      Call(id, name, arguments)
    }

    method Add(f: Fragment)
      modifies this
      ensures Value() == Call(old(id) + f.id, old(name) + f.name, old(arguments) + f.arguments)
    {
      if f.id != "" {
        id := id + f.id;
      }
      if f.name != "" {
        name := name + f.name;
      }
      if f.arguments != "" {
        arguments := arguments + f.arguments;
      }
    }
  }

  // One buffer object per index, holding what its fragments say so far.
  ghost predicate HoldsAt(buffers: map<int, ToolCallBuffer>, keys: set<int>, fragments: seq<Fragment>)
    reads buffers.Values
  {
    && buffers.Keys == keys
    && (forall i, j :: i in buffers && j in buffers && i != j ==> buffers[i] != buffers[j])
    && (forall i :: i in buffers ==> buffers[i].Value() == CallAt(fragments, i))
  }

  ghost predicate Holds(buffers: map<int, ToolCallBuffer>, fragments: seq<Fragment>)
    reads buffers.Values
  {
    HoldsAt(buffers, Indexes(fragments), fragments)
  }

  lemma {:induction false} OnlyJoin(a: seq<Fragment>, b: seq<Fragment>, index: int)
    ensures Only(a + b, index) == Only(a, index) + Only(b, index)
  {
    if a == [] {
      assert a + b == b;
    } else {
      OnlyJoin(a[1..], b, index);
      assert (a + b)[0] == a[0] && (a + b)[1..] == a[1..] + b;
    }
  }

  lemma {:induction false} JoinedSnoc(fragments: seq<Fragment>, f: Fragment)
    ensures
      var before := Joined(fragments);
      Joined(fragments + [f]) == Call(before.id + f.id, before.name + f.name, before.arguments + f.arguments)
  {
    if fragments == [] {
      assert [f][1..] == [];
    } else {
      JoinedSnoc(fragments[1..], f);
      assert (fragments + [f])[0] == fragments[0] && (fragments + [f])[1..] == fragments[1..] + [f];
    }
  }

  lemma CallAtSnoc(fragments: seq<Fragment>, f: Fragment, index: int)
    ensures
      var before := CallAt(fragments, index);
      CallAt(fragments + [f], index) ==
      if f.index == index then Call(before.id + f.id, before.name + f.name, before.arguments + f.arguments) else before
  {
    OnlyJoin(fragments, [f], index);
    assert Only([f], index) == if f.index == index then [f] else [] by { assert [f][1..] == []; }
    if f.index == index {
      JoinedSnoc(Only(fragments, index), f);
    } else {
      assert Only(fragments, index) + [] == Only(fragments, index);
    }
  }

  // The buffer of an index, made on first use.
  method SetDefault(buffers: map<int, ToolCallBuffer>, ghost seen: seq<Fragment>, index: int)
    returns (after: map<int, ToolCallBuffer>)
    requires Holds(buffers, seen)
    ensures HoldsAt(after, Indexes(seen) + {index}, seen)
    ensures forall b :: b in after.Values ==> b in buffers.Values || fresh(b)
  {
    after := buffers;
    if index !in buffers {
      OnlyWhenPresent(seen, index);
      var made := new ToolCallBuffer();
      after := buffers[index := made];
    }
  }

  method AddTo(buffers: map<int, ToolCallBuffer>, ghost seen: seq<Fragment>, f: Fragment)
    requires HoldsAt(buffers, Indexes(seen) + {f.index}, seen)
    modifies buffers.Values
    ensures HoldsAt(buffers, Indexes(seen) + {f.index}, seen + [f])
  {
    var buffer := buffers[f.index];
    buffer.Add(f);
    forall i | i in buffers
      ensures buffers[i].Value() == CallAt(seen + [f], i)
    {
      CallAtSnoc(seen, f, i);
    }
  }

  // One fragment: the buffer of its index takes what it carries.
  method AddFragment(buffers: map<int, ToolCallBuffer>, ghost seen: seq<Fragment>, f: Fragment)
    returns (after: map<int, ToolCallBuffer>)
    requires Holds(buffers, seen)
    modifies buffers.Values
    ensures Holds(after, seen + [f])
    ensures forall b :: b in after.Values ==> b in buffers.Values || fresh(b)
  {
    after := SetDefault(buffers, seen, f.index);
    AddTo(after, seen, f);
    assert Indexes(seen + [f]) == Indexes(seen) + {f.index};
  }

  method AddFragments(before: map<int, ToolCallBuffer>, ghost seen: seq<Fragment>, fragments: seq<Fragment>)
    returns (buffers: map<int, ToolCallBuffer>)
    requires Holds(before, seen)
    modifies before.Values
    ensures Holds(buffers, seen + fragments)
    ensures forall b :: b in buffers.Values ==> b in before.Values || fresh(b)
  {
    buffers := before;
    var j := 0;
    assert seen + fragments[..0] == seen;
    while j < |fragments|
      invariant j <= |fragments| && Holds(buffers, seen + fragments[..j])
      invariant forall b :: b in buffers.Values ==> b in before.Values || fresh(b)
    {
      buffers := AddFragment(buffers, seen + fragments[..j], fragments[j]);
      assert seen + fragments[..j] + [fragments[j]] == seen + fragments[..j + 1];
      j := j + 1;
    }
    assert fragments[..j] == fragments;
  }

  lemma TailOfTake(stream: seq<Delta>, n: nat)
    requires 0 < n <= |stream|
    ensures stream[..n][0] == stream[0] && stream[..n][1..] == stream[1..][..n - 1]
  {
  }

  lemma {:induction false} StreamSplit(stream: seq<Delta>, i: nat)
    requires i < |stream|
    ensures Content(stream[..i + 1]) == Content(stream[..i]) + stream[i].content
    ensures Fragments(stream[..i + 1]) == Fragments(stream[..i]) + stream[i].fragments
  {
    if i == 0 {
      assert stream[..1][1..] == [];
    } else {
      StreamSplit(stream[1..], i - 1);
      TailOfTake(stream, i);
      TailOfTake(stream, i + 1);
    }
  }

  method Assemble(stream: seq<Delta>) returns (text: string, buffers: map<int, ToolCallBuffer>)
    ensures text == Content(stream)
    ensures Holds(buffers, Fragments(stream))
    ensures fresh(buffers.Values)
  {
    text, buffers := "", map[];
    var i := 0;
    while i < |stream|
      invariant i <= |stream| && fresh(buffers.Values)
      invariant text == Content(stream[..i])
      invariant Holds(buffers, Fragments(stream[..i]))
    {
      StreamSplit(stream, i);
      text := text + stream[i].content;
      buffers := AddFragments(buffers, Fragments(stream[..i]), stream[i].fragments);
      i := i + 1;
    }
    assert stream[..i] == stream;
  }

  // The indexes of the buffers, smallest first.
  method SortedIndexes(keys: set<int>) returns (order: seq<int>)
    ensures order == Ascending(keys)
  {
    order := [];
    var rest := keys;
    while rest != {}
      invariant rest <= keys && Sorted(order)
      invariant forall k :: k in order <==> k in keys - rest
      decreases |rest|
    {
      HasMember(rest);
      var k :| k in rest;
      order := InsertSorted(order, k);
      rest := rest - {k};
    }
    SortedIsAscending(order, keys);
  }

  method InsertSorted(order: seq<int>, k: int) returns (longer: seq<int>)
    requires Sorted(order) && k !in order
    ensures Sorted(longer)
    ensures forall x :: x in longer <==> x in order || x == k
  {
    var i := 0;
    while i < |order| && order[i] < k
      invariant i <= |order|
      invariant forall j :: 0 <= j < i ==> order[j] < k
    {
      i := i + 1;
    }
    longer := order[..i] + [k] + order[i..];
    InsertedHas(order[..i], k, order[i..]);
    InsertedSorted(order, k, i);
    assert order == order[..i] + order[i..];
  }

  lemma InsertedSorted(order: seq<int>, k: int, i: nat)
    requires Sorted(order) && i <= |order| && k !in order
    requires (forall j :: 0 <= j < i ==> order[j] < k) && (i < |order| ==> order[i] >= k)
    ensures Sorted(order[..i] + [k] + order[i..])
  {
  }

  lemma InsertedHas(front: seq<int>, k: int, back: seq<int>)
    ensures forall x :: x in front + [k] + back <==> x in front + back || x == k
  {
  }

  // ------------------------------------------------------------------
  // The transcript
  // ------------------------------------------------------------------

  datatype Message =
    | Plain(role: string, content: string)
    | Calls(text: string, calls: seq<Call>)
    | ToolResult(id: string, content: string)

  ghost predicate Answers(messages: seq<Message>, calls: seq<Call>) {
    && |messages| >= |calls|
    && forall i :: 0 <= i < |calls| ==> messages[i].ToolResult? && messages[i].id == calls[i].id
  }

  // What the model requires of a transcript: every list of tool calls is followed by exactly one result per call, in
  // order and with the same ids, and there are no other results.
  ghost predicate Paired(messages: seq<Message>)
    decreases |messages|
  {
    if messages == [] then true
    else
      match messages[0]
      case Plain(_, _) => Paired(messages[1..])
      case Calls(_, calls) => calls != [] && Answers(messages[1..], calls) && Paired(messages[1 + |calls|..])
      case ToolResult(_, _) => false
  }

  lemma CallsJoin(a: seq<Message>, b: seq<Message>)
    requires a != [] && a[0].Calls? && Answers(a[1..], a[0].calls)
    ensures (a + b)[1 + |a[0].calls|..] == a[1 + |a[0].calls|..] + b
    ensures Answers((a + b)[1..], a[0].calls)
  {
    assert (a + b)[1..] == a[1..] + b;
  }

  lemma {:induction false} PairedJoin(a: seq<Message>, b: seq<Message>)
    requires Paired(a) && Paired(b)
    ensures Paired(a + b)
    decreases |a|
  {
    if a == [] {
      assert a + b == b;
    } else {
      assert (a + b)[0] == a[0] && (a + b)[1..] == a[1..] + b;
      if a[0].Calls? {
        PairedJoin(a[1 + |a[0].calls|..], b);
        CallsJoin(a, b);
      } else {
        PairedJoin(a[1..], b);
      }
    }
  }

  // What the world answers during one request: the stream of each round, or nothing when the model call raises; the
  // result of each tool call by round, position and call, or nothing when running it raises; and whether the stay is
  // still the current one when that result, or the final text, is saved.
  datatype World = World(reply: nat -> Option<seq<Delta>>, tool: (nat, nat, Call) -> Option<string>, current: (nat, nat) -> bool)

  predicate Returns(w: World, round: nat, calls: seq<Call>, i: nat)
    requires i < |calls|
  {
    w.tool(round, i, calls[i]).Some?
  }

  ghost predicate AllReturn(w: World, round: nat, calls: seq<Call>, n: nat)
    requires n <= |calls|
  {
    forall i: nat :: i < n ==> Returns(w, round, calls, i)
  }

  ghost function Result(w: World, round: nat, calls: seq<Call>, i: nat): Message
    requires i < |calls|
  {
    ToolResult(calls[i].id, if Returns(w, round, calls, i) then w.tool(round, i, calls[i]).value else "")
  }

  ghost function Results(w: World, round: nat, calls: seq<Call>, n: nat): (results: seq<Message>)
    requires n <= |calls|
    ensures |results| == n
  {
    seq(n, i requires 0 <= i < n => Result(w, round, calls, i))
  }

  // What the model is told of the first `n` calls: the result of each, under its id.
  ghost predicate Tells(w: World, round: nat, calls: seq<Call>, n: nat, results: seq<Message>) {
    && n <= |calls| && |results| == n
    && forall i: nat :: i < n ==>
         w.tool(round, i, calls[i]).Some? && results[i] == ToolResult(calls[i].id, w.tool(round, i, calls[i]).value)
  }

  lemma ResultsTell(w: World, round: nat, calls: seq<Call>, n: nat)
    requires n <= |calls| && AllReturn(w, round, calls, n)
    ensures Tells(w, round, calls, n, Results(w, round, calls, n))
  {
    forall i: nat | i < n
      ensures w.tool(round, i, calls[i]).Some?
      ensures Results(w, round, calls, n)[i] == ToolResult(calls[i].id, w.tool(round, i, calls[i]).value)
    {
      assert Returns(w, round, calls, i);
    }
  }

  // The results that are stored: those whose stay is still current.
  ghost function Saved(w: World, round: nat, calls: seq<Call>, n: nat): seq<Message>
    requires n <= |calls|
  {
    if n == 0 then []
    else Saved(w, round, calls, n - 1) + if w.current(round, n - 1) then [Result(w, round, calls, n - 1)] else []
  }

  ghost function Turn(w: World, round: nat, stream: seq<Delta>): seq<Message> {
    [Calls(Content(stream), CallsOf(stream))] + Results(w, round, CallsOf(stream), |CallsOf(stream)|)
  }

  // The round ends with one result for each of the calls it asked for, and so another one follows.
  ghost predicate GoesOn(w: World, round: nat) {
    && w.reply(round).Some?
    && AsksForTools(w.reply(round).value)
    && AllReturn(w, round, CallsOf(w.reply(round).value), |CallsOf(w.reply(round).value)|)
  }

  ghost function StreamOf(w: World, round: nat): seq<Delta> {
    if w.reply(round).Some? then w.reply(round).value else []
  }

  // The parts of the first `n` rounds, in order.
  ghost function Gathered<T>(first: seq<T>, part: nat -> seq<T>, n: nat): seq<T> {
    if n == 0 then first else Gathered(first, part, n - 1) + part(n - 1)
  }

  ghost function Turns(w: World): nat -> seq<Message> {
    (round: nat) => Turn(w, round, StreamOf(w, round))
  }

  ghost function CallsMade(w: World): nat -> seq<Call> {
    (round: nat) => CallsOf(StreamOf(w, round))
  }

  ghost function RowsMade(w: World): nat -> seq<Message> {
    (round: nat) => Saved(w, round, CallsOf(StreamOf(w, round)), |CallsOf(StreamOf(w, round))|)
  }

  // What the model is given, the calls run and the results stored after `rounds` rounds of tools.
  ghost function Transcript(w: World, first: seq<Message>, rounds: nat): seq<Message> {
    Gathered(first, Turns(w), rounds)
  }

  ghost function Executed(w: World, rounds: nat): seq<Call> {
    Gathered([], CallsMade(w), rounds)
  }

  ghost function Stored(w: World, rounds: nat): seq<Message> {
    Gathered([], RowsMade(w), rounds)
  }

  ghost predicate AsksForTools(stream: seq<Delta>) {
    Fragments(stream) != []
  }

  lemma AskingHasCalls(stream: seq<Delta>)
    ensures AsksForTools(stream) <==> CallsOf(stream) != []
    ensures AsksForTools(stream) <==> Indexes(Fragments(stream)) != {}
  {
    var f := Fragments(stream);
    if f != [] {
      assert f[0] in f;
      assert f[0].index in Indexes(f);
    }
  }

  lemma TurnIsPaired(w: World, round: nat, stream: seq<Delta>)
    requires AsksForTools(stream)
    ensures Paired(Turn(w, round, stream))
  {
    AskingHasCalls(stream);
    var turn := Turn(w, round, stream);
    assert turn[1..] == Results(w, round, CallsOf(stream), |CallsOf(stream)|);
    assert turn[1 + |CallsOf(stream)|..] == [];
  }

  lemma {:induction false} PairedGathered(first: seq<Message>, part: nat -> seq<Message>, n: nat)
    requires Paired(first) && forall i: nat :: i < n ==> Paired(part(i))
    ensures Paired(Gathered(first, part, n))
  {
    if n > 0 {
      PairedGathered(first, part, n - 1);
      PairedJoin(Gathered(first, part, n - 1), part(n - 1));
    }
  }

  // Every transcript the model is given is one it accepts, when the history is.
  lemma TranscriptIsPaired(w: World, first: seq<Message>, rounds: nat)
    requires Paired(first) && WentOn(w, rounds)
    ensures Paired(Transcript(w, first, rounds))
  {
    forall i: nat | i < rounds
      ensures Paired(Turns(w)(i))
    {
      assert GoesOn(w, i);
      TurnIsPaired(w, i, StreamOf(w, i));
    }
    PairedGathered(first, Turns(w), rounds);
  }

  // The first `n` rounds all went on.
  ghost predicate WentOn(w: World, n: nat) {
    forall i: nat :: i < n ==> GoesOn(w, i)
  }

  function ResultsIn(messages: seq<Message>): seq<Message> {
    if messages == [] then []
    else (if messages[0].ToolResult? then [messages[0]] else []) + ResultsIn(messages[1..])
  }

  lemma {:induction false} ResultsInJoin(a: seq<Message>, b: seq<Message>)
    ensures ResultsIn(a + b) == ResultsIn(a) + ResultsIn(b)
  {
    if a == [] {
      assert a + b == b;
    } else {
      ResultsInJoin(a[1..], b);
      ResultsInStep(a, b);
    }
  }

  lemma ResultsInStep(a: seq<Message>, b: seq<Message>)
    requires a != []
    ensures ResultsIn(a + b) == (if a[0].ToolResult? then [a[0]] else []) + ResultsIn(a[1..] + b)
  {
    assert (a + b)[0] == a[0] && (a + b)[1..] == a[1..] + b;
  }

  lemma {:induction false} ResultsInResults(messages: seq<Message>)
    requires forall i :: 0 <= i < |messages| ==> messages[i].ToolResult?
    ensures ResultsIn(messages) == messages
  {
    if messages != [] {
      ResultsInResults(messages[1..]);
    }
  }

  lemma {:induction false} SavedAll(w: World, round: nat, calls: seq<Call>, n: nat)
    requires n <= |calls| && forall i: nat :: i < n ==> w.current(round, i)
    ensures Saved(w, round, calls, n) == Results(w, round, calls, n)
  {
    if n > 0 {
      SavedAll(w, round, calls, n - 1);
    }
  }

  // The stored results are those of the calls after which the stay was still current, in order.
  lemma {:induction false} SavedAt(w: World, round: nat, calls: seq<Call>, n: nat) returns (positions: seq<int>)
    requires n <= |calls|
    ensures Sorted(positions) && forall i: nat :: i in positions <==> i < n && w.current(round, i)
    ensures forall k :: 0 <= k < |positions| ==> 0 <= positions[k] < n
    ensures |Saved(w, round, calls, n)| == |positions|
    ensures forall k :: 0 <= k < |positions| ==> Saved(w, round, calls, n)[k] == Result(w, round, calls, positions[k])
  {
    if n == 0 {
      positions := [];
    } else {
      positions := SavedAt(w, round, calls, n - 1);
      if w.current(round, n - 1) {
        positions := positions + [n - 1];
      }
    }
  }

  lemma TurnResults(w: World, round: nat, stream: seq<Delta>)
    ensures ResultsIn(Turn(w, round, stream)) == Results(w, round, CallsOf(stream), |CallsOf(stream)|)
  {
    var calls := CallsOf(stream);
    var results := Results(w, round, calls, |calls|);
    ResultsInResults(results);
    assert ResultsIn(Turn(w, round, stream)) == [] + ResultsIn(results) by {
      assert Turn(w, round, stream)[1..] == results;
    }
  }

  lemma {:induction false} ResultsInGathered(first: seq<Message>, part: nat -> seq<Message>, rows: nat -> seq<Message>, n: nat)
    requires forall i: nat :: i < n ==> ResultsIn(part(i)) == rows(i)
    ensures ResultsIn(Gathered(first, part, n)) == ResultsIn(first) + Gathered([], rows, n)
  {
    if n > 0 {
      ResultsInGathered(first, part, rows, n - 1);
      ResultsInJoin(Gathered(first, part, n - 1), part(n - 1));
    }
  }

  // While the stay lasts, the tool messages stored are those the model was given, in that order.
  lemma StoredIsTranscript(w: World, first: seq<Message>, rounds: nat)
    requires forall round: nat, i: nat :: round < rounds ==> w.current(round, i)
    ensures ResultsIn(Transcript(w, first, rounds)) == ResultsIn(first) + Stored(w, rounds)
  {
    forall round: nat | round < rounds
      ensures ResultsIn(Turns(w)(round)) == RowsMade(w)(round)
    {
      var calls := CallsOf(StreamOf(w, round));
      SavedAll(w, round, calls, |calls|);
      TurnResults(w, round, StreamOf(w, round));
    }
    ResultsInGathered(first, Turns(w), RowsMade(w), rounds);
  }

  // A reset ends the storing: no result of a later position is stored, although the calls go on being run.
  lemma {:induction false} NothingStoredAfterReset(w: World, round: nat, calls: seq<Call>, gone: nat, n: nat)
    requires gone <= n <= |calls| && forall i: nat :: gone <= i ==> !w.current(round, i)
    ensures Saved(w, round, calls, n) == Saved(w, round, calls, gone)
    decreases n
  {
    if gone < n {
      NothingStoredAfterReset(w, round, calls, gone, n - 1);
    }
  }

  // ------------------------------------------------------------------
  // The agent
  // ------------------------------------------------------------------

  // Raised stands for an exception of a model call or a tool.
  datatype Outcome = Answer(text: string) | Cancelled | EmptyResponse | TooManyRounds | Raised

  const MAX_ITERATIONS := 5

  // How a reply without tool calls ends the request.
  function Ending(text: string, stayIsCurrent: bool): Outcome {
    if SpeechText.Blank(text) then EmptyResponse else if stayIsCurrent then Answer(text) else Cancelled
  }

  // The first `i` calls have been collected.
  ghost predicate CollectedTo(calls: seq<Call>, fragments: seq<Fragment>, order: seq<int>, i: nat)
    requires i <= |order|
  {
    |calls| == i && forall k :: 0 <= k < i ==> calls[k] == CallAt(fragments, order[k])
  }

  lemma CollectedNext(calls: seq<Call>, fragments: seq<Fragment>, order: seq<int>, i: nat, call: Call)
    requires i < |order| && CollectedTo(calls, fragments, order, i) && call == CallAt(fragments, order[i])
    ensures CollectedTo(calls + [call], fragments, order, i + 1)
  {
  }

  lemma CollectedAll(calls: seq<Call>, fragments: seq<Fragment>, order: seq<int>)
    requires CollectedTo(calls, fragments, order, |order|)
    ensures calls == InOrder(fragments, order)
  {
  }

  // The assembled calls in the given order.
  method CollectCalls(buffers: map<int, ToolCallBuffer>, order: seq<int>, ghost fragments: seq<Fragment>)
    returns (calls: seq<Call>)
    requires Holds(buffers, fragments)
    requires forall i :: 0 <= i < |order| ==> order[i] in buffers
    ensures calls == InOrder(fragments, order)
  {
    calls := [];
    var i := 0;
    while i < |order|
      invariant i <= |order| && CollectedTo(calls, fragments, order, i)
    {
      var call := buffers[order[i]].Value();
      CollectedNext(calls, fragments, order, i, call);
      calls := calls + [call];
      i := i + 1;
    }
    CollectedAll(calls, fragments, order);
  }

  // Runs the calls in order, up to the first that raises; each other result is stored and appended.
  method RunTools(w: World, messages: seq<Message>, executed: seq<Call>, stored: seq<Message>, calls: seq<Call>, round: nat)
    returns (ran: nat, after: seq<Message>, done: seq<Call>, rows: seq<Message>)
    ensures ran <= |calls| && AllReturn(w, round, calls, ran) && (ran < |calls| ==> !Returns(w, round, calls, ran))
    ensures after == messages + Results(w, round, calls, ran)
    ensures |after| == |messages| + ran && Tells(w, round, calls, ran, after[|messages|..])
    ensures ran < |calls| ==> w.tool(round, ran, calls[ran]).None?
    ensures done == executed + if ran < |calls| then calls[..ran + 1] else calls
    ensures rows == stored + Saved(w, round, calls, ran)
  {
    after, done, rows, ran := messages, executed, stored, 0;
    while ran < |calls|
      invariant ran <= |calls| && AllReturn(w, round, calls, ran)
      invariant after == messages + Results(w, round, calls, ran)
      invariant done == executed + calls[..ran]
      invariant rows == stored + Saved(w, round, calls, ran)
    {
      var call := calls[ran];
      done := done + [call];
      assert calls[..ran + 1] == calls[..ran] + [call];
      var result := w.tool(round, ran, call);
      if result.None? {
        ResultsTell(w, round, calls, ran);
        assert after[|messages|..] == Results(w, round, calls, ran);
        return;
      }
      var message := ToolResult(call.id, result.value);
      if w.current(round, ran) {
        rows := rows + [message];
      }
      after := after + [message];
      assert Results(w, round, calls, ran + 1) == Results(w, round, calls, ran) + [message];
      ran := ran + 1;
    }
    assert calls[..|calls|] == calls;
    ResultsTell(w, round, calls, ran);
    assert after[|messages|..] == Results(w, round, calls, ran);
  }

  // How a round ends the request: the model call raises, a tool raises, or there is nothing more to run.
  ghost predicate EndsWith(w: World, round: nat, outcome: Outcome) {
    && !GoesOn(w, round)
    && (outcome == Raised <==> w.reply(round).None? || AsksForTools(w.reply(round).value))
    && (outcome != Raised ==> EndsBy(Content(w.reply(round).value), w.current(round, 0), outcome))
  }

  // A reply without tool calls is saved and answers the request, unless it is blank or the stay has been reset.
  ghost predicate EndsBy(text: string, stayIsCurrent: bool, outcome: Outcome) {
    && (outcome == EmptyResponse <==> forall c :: c in text ==> SpeechText.IsSpace(c))
    && (outcome == Answer(text) <==> stayIsCurrent && exists c :: c in text && !SpeechText.IsSpace(c))
    && (outcome == Cancelled <==> !stayIsCurrent && exists c :: c in text && !SpeechText.IsSpace(c))
  }

  lemma EndingIs(text: string, stayIsCurrent: bool)
    ensures EndsBy(text, stayIsCurrent, Ending(text, stayIsCurrent)) && Ending(text, stayIsCurrent) != Raised
  {
  }

  // In the round that ends the request no call is run, or those up to and with the first that raises are run and the
  // results of the others stored.
  ghost predicate LastCalls(w: World, round: nat, executed: seq<Call>, stored: seq<Message>, done: seq<Call>,
      rows: seq<Message>) {
    if w.reply(round).None? || !AsksForTools(w.reply(round).value) then done == executed && rows == stored
    else
      var calls := CallsOf(w.reply(round).value);
      exists raised: nat ::
        && raised < |calls| && AllReturn(w, round, calls, raised) && !Returns(w, round, calls, raised)
        && done == executed + calls[..raised + 1] && rows == stored + Saved(w, round, calls, raised)
  }

  // The text and the tool calls of a stream.
  method ReadStream(stream: seq<Delta>) returns (text: string, calls: seq<Call>)
    ensures text == Content(stream) && calls == CallsOf(stream)
  {
    var buffers;
    text, buffers := Assemble(stream);
    var order := SortedIndexes(buffers.Keys);
    AscendingIsSorted(buffers.Keys);
    forall i | 0 <= i < |order|
      ensures order[i] in buffers
    {
      assert order[i] in order;
    }
    calls := CollectCalls(buffers, order, Fragments(stream));
  }

  // One model call: it ends the request, or asks for tools, and then the assistant's message with its calls and their
  // results are appended.
  method RunRound(w: World, messages: seq<Message>, executed: seq<Call>, stored: seq<Message>, round: nat)
    returns (outcome: Option<Outcome>, after: seq<Message>, done: seq<Call>, rows: seq<Message>)
    ensures outcome == None <==> GoesOn(w, round)
    ensures GoesOn(w, round) ==>
              var calls := CallsOf(StreamOf(w, round));
              after == messages + Turn(w, round, StreamOf(w, round)) && done == executed + calls
              && |after| > |messages| && after[|messages|] == Calls(Content(StreamOf(w, round)), calls)
              && Tells(w, round, calls, |calls|, after[|messages| + 1..])
              && rows == stored + Saved(w, round, calls, |calls|)
    ensures !GoesOn(w, round) ==>
              EndsWith(w, round, outcome.value) && LastCalls(w, round, executed, stored, done, rows)
  {
    if w.reply(round).None? {
      return Some(Raised), messages, executed, stored;
    }
    var stream := w.reply(round).value;
    var text, calls := ReadStream(stream);
    AskingHasCalls(stream);
    if calls == [] {
      EndingIs(text, w.current(round, 0));
      return Some(Ending(text, w.current(round, 0))), messages, executed, stored;
    }
    var ran: nat;
    ran, after, done, rows := RunTools(w, messages + [Calls(text, calls)], executed, stored, calls, round);
    if ran < |calls| {
      return Some(Raised), after, done, rows;
    }
    TurnAppended(w, messages, round, stream);
    assert after[|messages + [Calls(text, calls)]|..] == after[|messages| + 1..];
    outcome := None;
  }

  lemma TurnAppended(w: World, messages: seq<Message>, round: nat, stream: seq<Delta>)
    ensures
      var calls := CallsOf(stream);
      (messages + [Calls(Content(stream), calls)]) + Results(w, round, calls, |calls|) == messages + Turn(w, round, stream)
  {
  }

  // The transcripts given to the model so far.
  ghost predicate Given(w: World, first: seq<Message>, asked: seq<seq<Message>>) {
    forall n :: 0 <= n < |asked| ==> asked[n] == Transcript(w, first, n)
  }

  // The state before round `round`.
  ghost predicate Before(w: World, first: seq<Message>, round: nat, messages: seq<Message>, executed: seq<Call>,
      stored: seq<Message>) {
    && messages == Transcript(w, first, round) && executed == Executed(w, round) && stored == Stored(w, round)
    && WentOn(w, round)
  }

  lemma GivenNext(w: World, first: seq<Message>, asked: seq<seq<Message>>, messages: seq<Message>)
    requires Given(w, first, asked) && messages == Transcript(w, first, |asked|)
    ensures Given(w, first, asked + [messages]) && |asked + [messages]| == |asked| + 1
  {
  }

  lemma BeforeNext(w: World, first: seq<Message>, round: nat, messages: seq<Message>, executed: seq<Call>, stored: seq<Message>)
    requires Before(w, first, round, messages, executed, stored) && GoesOn(w, round)
    ensures
      var calls := CallsOf(StreamOf(w, round));
      Before(w, first, round + 1, messages + Turn(w, round, StreamOf(w, round)), executed + calls,
        stored + Saved(w, round, calls, |calls|))
  {
  }

  // The request ended in round `last`.
  ghost predicate EndedAt(w: World, last: nat, outcome: Outcome, executed: seq<Call>, stored: seq<Message>) {
    && WentOn(w, last) && EndsWith(w, last, outcome)
    && LastCalls(w, last, Executed(w, last), Stored(w, last), executed, stored)
  }

  // How a request ends: after at most five model calls, each with the transcript so far. The first round that does not
  // go on decides; every call before it was run and its result stored.
  ghost predicate Concluded(w: World, first: seq<Message>, outcome: Outcome, asked: seq<seq<Message>>, executed: seq<Call>,
      stored: seq<Message>) {
    && 1 <= |asked| <= 5 && Given(w, first, asked)
    && (outcome == TooManyRounds <==> WentOn(w, 5))
    && (if outcome == TooManyRounds
        then |asked| == 5 && executed == Executed(w, |asked|) && stored == Stored(w, |asked|)
        else EndedAt(w, |asked| - 1, outcome, executed, stored))
  }

  // What is known before a round.
  ghost predicate Asking(w: World, first: seq<Message>, round: nat, asked: seq<seq<Message>>, messages: seq<Message>,
      executed: seq<Call>, stored: seq<Message>) {
    && round <= MAX_ITERATIONS && |asked| == round && Given(w, first, asked)
    && Before(w, first, round, messages, executed, stored)
  }

  lemma AskingStarts(w: World, first: seq<Message>)
    ensures Asking(w, first, 0, [], first, [], [])
  {
  }

  lemma ConcludedEarly(w: World, first: seq<Message>, outcome: Outcome, asked: seq<seq<Message>>, executed: seq<Call>,
      stored: seq<Message>)
    requires 1 <= |asked| <= MAX_ITERATIONS && Given(w, first, asked)
    requires EndedAt(w, |asked| - 1, outcome, executed, stored) && outcome != TooManyRounds && !GoesOn(w, |asked| - 1)
    ensures Concluded(w, first, outcome, asked, executed, stored)
  {
  }

  lemma ConcludedLate(w: World, first: seq<Message>, round: nat, asked: seq<seq<Message>>, messages: seq<Message>,
      executed: seq<Call>, stored: seq<Message>)
    requires round == MAX_ITERATIONS && Asking(w, first, round, asked, messages, executed, stored)
    ensures Concluded(w, first, TooManyRounds, asked, executed, stored)
  {
  }

  // One round, from what is known before it to what is known before the next, or to the end.
  method AskOnce(w: World, ghost first: seq<Message>, round: nat, asked: seq<seq<Message>>, messages: seq<Message>,
      executed: seq<Call>, stored: seq<Message>)
    returns (ending: Option<Outcome>, asked': seq<seq<Message>>, after: seq<Message>, done: seq<Call>, rows: seq<Message>)
    requires round < MAX_ITERATIONS && Asking(w, first, round, asked, messages, executed, stored)
    ensures ending.None? ==> Asking(w, first, round + 1, asked', after, done, rows)
    ensures ending.Some? ==> Concluded(w, first, ending.value, asked', done, rows)
  {
    asked' := asked + [messages];
    GivenNext(w, first, asked, messages);
    ending, after, done, rows := RunRound(w, messages, executed, stored, round);
    if ending.None? {
      BeforeNext(w, first, round, messages, executed, stored);
    } else {
      ConcludedEarly(w, first, ending.value, asked', done, rows);
    }
  }

  // The agent.
  method RunAgent(w: World, first: seq<Message>)
    returns (outcome: Outcome, asked: seq<seq<Message>>, executed: seq<Call>, stored: seq<Message>)
    ensures Concluded(w, first, outcome, asked, executed, stored)
  {
    var messages := first;
    asked, executed, stored := [], [], [];
    AskingStarts(w, first);
    var round := 0;
    while round < MAX_ITERATIONS
      invariant Asking(w, first, round, asked, messages, executed, stored)
    {
      var ending;
      ending, asked, messages, executed, stored := AskOnce(w, first, round, asked, messages, executed, stored);
      if ending.Some? {
        return ending.value, asked, executed, stored;
      }
      round := round + 1;
    }
    outcome := TooManyRounds;
    ConcludedLate(w, first, round, asked, messages, executed, stored);
  }
}
