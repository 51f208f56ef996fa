/**
 Domain names in DNS messages: reading a name that may be compressed with pointers, against the
 recursive meaning of labels and pointers (section 4.1.4 of RFC 1035), and writing one.
 A name is read as the bytes of its labels, which are then decoded and joined.
 */
module DnsNames {
  import opened Prelude

  type Byte = x: int | 0 <= x < 256
  type Label = seq<Byte>

  datatype DnsError = InvalidName | InvalidPointer | InvalidLabel

  // ------------------------------------------------------------------
  // What stands at one offset, and what a name means
  // ------------------------------------------------------------------

  datatype Element = Root | Text(text: Label, next: nat) | Pointer(target: nat) | Bad(error: DnsError)

  function ElementAt(message: seq<Byte>, offset: nat): Element {
    if offset >= |message| then Bad(InvalidName)
    else
      var length: int := message[offset];
      if length >= 0xC0 then
        if offset + 1 >= |message| then Bad(InvalidPointer)
        else Pointer((length - 0xC0) * 256 + message[offset + 1] as int)
      else if length == 0 then Root
      else if length > 63 || offset + 1 + length > |message| then Bad(InvalidLabel)
      else Text(message[offset + 1..offset + 1 + length], offset + 1 + length)
  }

  type Reading = Option<Result<seq<Label>, DnsError>>

  function Prepend(labels: seq<Label>, r: Reading): Reading {
    if r.Some? && r.value.Ok? then Some(Ok(labels + r.value.value)) else r
  }

  // The labels at an offset: none at the root, a label and those after it, or those a pointer leads to.
  // A reading that takes more than `fuel` elements is undecided.
  function Meaning(message: seq<Byte>, offset: nat, fuel: nat): Reading
    decreases fuel
  {
    if fuel == 0 then None
    else
      match ElementAt(message, offset)
      case Root => Some(Ok([]))
      case Text(text, next) => Prepend([text], Meaning(message, next, fuel - 1))
      case Pointer(target) => Meaning(message, target, fuel - 1)
      case Bad(error) => Some(Err(error))
  }

  // The offset after the name as it stands: after its first pointer or its terminating zero.
  function EndOf(message: seq<Byte>, offset: nat): nat
    decreases if offset < |message| then |message| - offset else 0
  {
    match ElementAt(message, offset)
    case Root => offset + 1
    case Text(_, next) => EndOf(message, next)
    case Pointer(_) => offset + 2
    case Bad(_) => offset
  }

  datatype Name = Name(labels: seq<Label>, next: nat)

  // The right answer: the meaning when there is one, and an invalid name when the pointers never end.
  ghost predicate Right(message: seq<Byte>, offset: nat, r: Result<Name, DnsError>) {
    && (forall fuel: nat :: Meaning(message, offset, fuel).Some? ==>
          Meaning(message, offset, fuel).value == if r.Ok? then Ok(r.value.labels) else Err(r.error))
    && ((forall fuel: nat :: Meaning(message, offset, fuel).None?) ==> r == Err(InvalidName))
    && (r.Ok? ==> r.value.next == EndOf(message, offset))
  }

  lemma {:induction false} MoreFuel(message: seq<Byte>, offset: nat, fuel: nat, more: nat)
    requires fuel <= more && Meaning(message, offset, fuel).Some?
    ensures Meaning(message, offset, more) == Meaning(message, offset, fuel)
    decreases fuel
  {
    match ElementAt(message, offset)
    case Root =>
    case Text(_, next) => MoreFuel(message, next, fuel - 1, more - 1);
    case Pointer(target) => MoreFuel(message, target, fuel - 1, more - 1);
    case Bad(_) =>
  }

  // There is exactly one right answer.
  lemma RightIsUnique(message: seq<Byte>, offset: nat, r: Result<Name, DnsError>, s: Result<Name, DnsError>)
    requires Right(message, offset, r) && Right(message, offset, s)
    ensures r == s
  {
  }

  ghost predicate Decided(message: seq<Byte>, offset: nat, fuel: nat) {
    Meaning(message, offset, fuel).Some?
  }

  // Every offset has an answer.
  lemma RightExists(message: seq<Byte>, offset: nat) returns (r: Result<Name, DnsError>)
    ensures Right(message, offset, r)
  {
    if fuel: nat :| Decided(message, offset, fuel) {
      var m := Meaning(message, offset, fuel).value;
      r := if m.Ok? then Ok(Name(m.value, EndOf(message, offset))) else Err(m.error);
      forall more: nat | Meaning(message, offset, more).Some?
        ensures Meaning(message, offset, more) == Meaning(message, offset, fuel)
      {
        if more <= fuel {
          MoreFuel(message, offset, more, fuel);
        } else {
          MoreFuel(message, offset, fuel, more);
        }
      }
    } else {
      r := Err(InvalidName);
      forall fuel: nat
        ensures Meaning(message, offset, fuel).None?
      {
        assert !Decided(message, offset, fuel);
      }
    }
  }

  // The same outcome with labels in front.
  ghost predicate Behaves(r: Result<Name, DnsError>, front: seq<Label>, s: Result<Name, DnsError>) {
    if s.Ok? then r.Ok? && r.value.labels == front + s.value.labels else r == Err(s.error)
  }

  // `front` and then what is read at `next` is what is read at `offset`.
  lemma LeadsOn(message: seq<Byte>, offset: nat, steps: nat, front: seq<Label>, next: nat,
      r: Result<Name, DnsError>, s: Result<Name, DnsError>)
    requires Reached(message, offset, steps, front, next)
    requires Right(message, offset, r) && Right(message, next, s)
    ensures Behaves(r, front, s)
  {
    if fuel: nat :| Decided(message, next, fuel) {
      assert Meaning(message, offset, fuel + steps) == Prepend(front, Meaning(message, next, fuel));
    } else {
      forall fuel: nat
        ensures Meaning(message, offset, fuel).None?
      {
        assert !Decided(message, next, fuel);
        assert Meaning(message, offset, fuel + steps) == Prepend(front, Meaning(message, next, fuel));
        if Meaning(message, offset, fuel).Some? {
          MoreFuel(message, offset, fuel, fuel + steps);
        }
      }
      assert forall fuel: nat :: Meaning(message, next, fuel).None? by {
        assert forall fuel: nat :: !Decided(message, next, fuel);
      }
    }
  }

  // What the bytes at an offset say: nothing there is an invalid name; a zero ends the name; a length up to 63 is a label,
  // with the rest of the name behind it; 192 and more is a pointer of 14 bits, and the rest of the name is at its target;
  // any other length, and a label or pointer that is cut off, is an error.
  lemma ReadsByFirstByte(message: seq<Byte>, offset: nat, r: Result<Name, DnsError>)
    requires Right(message, offset, r)
    ensures offset >= |message| ==> r == Err(InvalidName)
    ensures offset < |message| && message[offset] == 0 ==> r == Ok(Name([], offset + 1))
    ensures offset < |message| && 0 < message[offset] < 192
            && (message[offset] > 63 || offset + message[offset] as int >= |message|) ==>
              r == Err(InvalidLabel)
    ensures offset + 1 == |message| && message[offset] >= 192 ==> r == Err(InvalidPointer)
  {
    assert Meaning(message, offset, 1) == match ElementAt(message, offset)
      case Root => Some(Ok([]))
      case Bad(error) => Some(Err(error))
      case _ => None;
  }

  lemma ReadsLabel(message: seq<Byte>, offset: nat, length: nat, r: Result<Name, DnsError>, s: Result<Name, DnsError>)
    requires 0 < length <= 63 && offset + length < |message| && message[offset] as int == length
    requires Right(message, offset, r) && Right(message, offset + 1 + length, s)
    ensures Behaves(r, [message[offset + 1..offset + 1 + length]], s)
    ensures r.Ok? ==> r.value.next == s.value.next
  {
    ReadsElement(message, offset, [message[offset + 1..offset + 1 + length]], offset + 1 + length, r, s);
  }

  lemma ReadsPointer(message: seq<Byte>, offset: nat, target: nat, r: Result<Name, DnsError>, s: Result<Name, DnsError>)
    requires offset + 1 < |message| && target < 16384
    requires message[offset] as int == 192 + target / 256 && message[offset + 1] as int == target % 256
    requires Right(message, offset, r) && Right(message, target, s)
    ensures Behaves(r, [], s) && (r.Ok? ==> r.value.next == offset + 2)
    ensures target == offset ==> r == Err(InvalidName)
  {
    PointerHere(message, offset, target);
    ReadsElement(message, offset, [], target, r, s);
    if target == offset {
      forall fuel: nat
        ensures Meaning(message, offset, fuel).None?
      {
        NoMeaningInCycle(message, offset, fuel);
      }
    }
  }

  lemma PointerHere(message: seq<Byte>, offset: nat, target: nat)
    requires offset + 1 < |message| && target < 16384
    requires message[offset] as int == 192 + target / 256 && message[offset + 1] as int == target % 256
    ensures ElementAt(message, offset) == Pointer(target)
  {
  }

  // A label or pointer, and what is read behind it.
  lemma ReadsElement(message: seq<Byte>, offset: nat, front: seq<Label>, next: nat,
      r: Result<Name, DnsError>, s: Result<Name, DnsError>)
    requires
      || (front == [] && ElementAt(message, offset) == Pointer(next))
      || (|front| == 1 && ElementAt(message, offset) == Element.Text(front[0], next))
    requires Right(message, offset, r) && Right(message, next, s)
    ensures Behaves(r, front, s)
    ensures front == [] ==> Follows(message, offset, next)
  {
    ReachedStart(message, offset);
    if front == [] {
      ReachedPointer(message, offset, 0, [], offset);
    } else {
      ReachedLabel(message, offset, 0, [], offset);
      assert [] + [front[0]] == front;
    }
    LeadsOn(message, offset, 1, front, next, r, s);
  }

  // ------------------------------------------------------------------
  // Text of labels: UTF-8, with replacements for what is not well formed
  // ------------------------------------------------------------------

  // How many bytes a sequence with this first byte has; none for a byte that can start no sequence.
  function SequenceLength(lead: Byte): nat {
    if lead < 0x80 then 1
    else if 0xC2 <= lead <= 0xDF then 2
    else if 0xE0 <= lead <= 0xEF then 3
    else if 0xF0 <= lead <= 0xF4 then 4
    else 0
  }

  // The second byte is limited further so that nothing has two forms, and no surrogate or too large value has one.
  predicate SecondFits(lead: Byte, b: Byte) {
    (if lead == 0xE0 then 0xA0 else if lead == 0xF0 then 0x90 else 0x80) <= b
    <= (if lead == 0xED then 0x9F else if lead == 0xF4 then 0x8F else 0xBF)
  }

  predicate Trails(b: Byte) {
    0x80 <= b <= 0xBF
  }

  // How many of the first bytes belong to one sequence, complete or broken off.
  function GoodPrefix(s: seq<Byte>): (n: nat)
    requires s != []
    ensures 1 <= n <= |s|
    ensures SequenceLength(s[0]) > 0 ==> n <= SequenceLength(s[0])
  {
    var length := SequenceLength(s[0]);
    if length < 2 || |s| < 2 || !SecondFits(s[0], s[1]) then 1
    else if length < 3 || |s| < 3 || !Trails(s[2]) then 2
    else if length < 4 || |s| < 4 || !Trails(s[3]) then 3
    else 4
  }

  const REPLACEMENT: char := 0xFFFD as char

  // The character of a complete sequence.
  function FirstChar(s: seq<Byte>): char
    requires s != []
  {
    var n := GoodPrefix(s);
    if n != SequenceLength(s[0]) then REPLACEMENT
    else if n == 1 then s[0] as int as char
    else if n == 2 then ((s[0] - 0xC0) as int * 64 + (s[1] - 0x80) as int) as char
    else if n == 3 then ((s[0] - 0xE0) as int * 4096 + (s[1] - 0x80) as int * 64 + (s[2] - 0x80) as int) as char
    else ((s[0] - 0xF0) as int * 262144 + (s[1] - 0x80) as int * 4096 + (s[2] - 0x80) as int * 64 + (s[3] - 0x80) as int) as char
  }

  // Every sequence that is broken off becomes one replacement character.
  function Decoded(s: seq<Byte>): string
    decreases |s|
  {
    if s == [] then "" else [FirstChar(s)] + Decoded(s[GoodPrefix(s)..])
  }

  function DecodedAll(labels: seq<Label>): seq<string> {
    if labels == [] then [] else [Decoded(labels[0])] + DecodedAll(labels[1..])
  }

  function NameText(labels: seq<Label>): string {
    if labels == [] then "" else JoinDots(DecodedAll(labels))
  }

  // One character as UTF-8.
  function Encoded(c: char): seq<Byte> {
    var n := c as int;
    if n < 0x80 then [n]
    else if n < 0x800 then [0xC0 + n / 64, 0x80 + n % 64]
    else if n < 0x10000 then [0xE0 + n / 4096, 0x80 + n / 64 % 64, 0x80 + n % 64]
    else [0xF0 + n / 262144, 0x80 + n / 4096 % 64, 0x80 + n / 64 % 64, 0x80 + n % 64]
  }

  function EncodedText(text: string): seq<Byte> {
    if text == "" then [] else Encoded(text[0]) + EncodedText(text[1..])
  }

  ghost predicate DecodesAs(bytes: seq<Byte>, rest: seq<Byte>, c: char) {
    bytes != [] && GoodPrefix(bytes + rest) == |bytes| && FirstChar(bytes + rest) == c
  }

  lemma TwoBytesDecode(c: char, rest: seq<Byte>)
    requires 0x80 <= c as int < 0x800
    ensures DecodesAs(Encoded(c), rest, c)
  {
    var n := c as int;
    var b0, b1 := n / 64, n % 64;
    assert n == b0 * 64 + b1;
    var s := Encoded(c) + rest;
    assert s[0] == 0xC0 + b0 && s[1] == 0x80 + b1;
  }

  lemma ThreeBytesDecode(c: char, rest: seq<Byte>)
    requires 0x800 <= c as int < 0x10000
    ensures DecodesAs(Encoded(c), rest, c)
  {
    var n := c as int;
    var b0, b1, b2 := n / 4096, n / 64 % 64, n % 64;
    assert n / 64 == b0 * 64 + b1;
    assert n == b0 * 4096 + b1 * 64 + b2;
    var s := Encoded(c) + rest;
    assert s[0] == 0xE0 + b0 && s[1] == 0x80 + b1 && s[2] == 0x80 + b2;
  }

  lemma FourBytesDecode(c: char, rest: seq<Byte>)
    requires 0x10000 <= c as int
    ensures DecodesAs(Encoded(c), rest, c)
  {
    var n := c as int;
    var b0, b1, b2, b3 := n / 262144, n / 4096 % 64, n / 64 % 64, n % 64;
    assert n / 4096 == b0 * 64 + b1 && n / 64 == n / 4096 * 64 + b2;
    assert n == b0 * 262144 + b1 * 4096 + b2 * 64 + b3;
    var s := Encoded(c) + rest;
    assert s[0] == 0xF0 + b0 && s[1] == 0x80 + b1 && s[2] == 0x80 + b2 && s[3] == 0x80 + b3;
  }

  lemma EncodedCharDecodes(c: char, rest: seq<Byte>)
    ensures DecodesAs(Encoded(c), rest, c)
  {
    if c as int < 0x80 {
      assert (Encoded(c) + rest)[0] == c as int;
    } else if 0x800 > c as int {
      TwoBytesDecode(c, rest);
    } else if 0x10000 > c as int {
      ThreeBytesDecode(c, rest);
    } else {
      FourBytesDecode(c, rest);
    }
  }

  // Decoding is right: every text is the decoding of its UTF-8 bytes.
  lemma {:induction false} DecodingUndoesEncoding(text: string)
    ensures Decoded(EncodedText(text)) == text
  {
    if text != "" {
      var head, rest := Encoded(text[0]), EncodedText(text[1..]);
      EncodedCharDecodes(text[0], rest);
      DecodingUndoesEncoding(text[1..]);
      assert (head + rest)[|head|..] == rest;
    }
  }

  ghost predicate IsWhole(s: seq<Byte>) {
    s != [] && GoodPrefix(s) == SequenceLength(s[0]) == |s|
  }

  lemma TwoBytesAre(s: seq<Byte>)
    requires IsWhole(s) && |s| == 2
    ensures Encoded(FirstChar(s)) == s
  {
    var n := FirstChar(s) as int;
    assert n == (s[0] - 0xC0) as int * 64 + (s[1] - 0x80) as int;
    assert n / 64 == (s[0] - 0xC0) as int && n % 64 == (s[1] - 0x80) as int;
  }

  lemma ThreeBytesAre(s: seq<Byte>)
    requires IsWhole(s) && |s| == 3
    ensures Encoded(FirstChar(s)) == s
  {
    var n, b0, b1, b2 := FirstChar(s) as int, (s[0] - 0xE0) as int, (s[1] - 0x80) as int, (s[2] - 0x80) as int;
    assert n == (b0 * 64 + b1) * 64 + b2;
    assert n / 64 == b0 * 64 + b1 && n % 64 == b2;
    assert n / 4096 == b0 && n / 64 % 64 == b1;
  }

  lemma FourBytesAre(s: seq<Byte>)
    requires IsWhole(s) && |s| == 4
    ensures Encoded(FirstChar(s)) == s
  {
    var n, b0, b1 := FirstChar(s) as int, (s[0] - 0xF0) as int, (s[1] - 0x80) as int;
    var b2, b3 := (s[2] - 0x80) as int, (s[3] - 0x80) as int;
    assert n == ((b0 * 64 + b1) * 64 + b2) * 64 + b3;
    assert n / 64 == (b0 * 64 + b1) * 64 + b2 && n % 64 == b3;
    assert n / 4096 == b0 * 64 + b1 && n / 64 % 64 == b2;
    assert n / 262144 == b0 && n / 4096 % 64 == b1;
  }

  lemma WholeIsEncoded(s: seq<Byte>)
    requires IsWhole(s)
    ensures Encoded(FirstChar(s)) == s
  {
    if |s| == 2 {
      TwoBytesAre(s);
    } else if |s| == 3 {
      ThreeBytesAre(s);
    } else if |s| == 4 {
      FourBytesAre(s);
    }
  }

  lemma SameStart(s: seq<Byte>, t: seq<Byte>, k: nat)
    requires 1 <= k <= |s| && k <= |t| && s[..k] == t[..k]
    ensures GoodPrefix(s) >= k <==> GoodPrefix(t) >= k
  {
    assert forall i :: 0 <= i < k ==> s[i] == s[..k][i] == t[..k][i] == t[i];
  }

  // A sequence that is broken off can be completed.
  lemma CanBeCompleted(s: seq<Byte>, k: nat) returns (c: char)
    requires 2 <= k <= |s| && k <= GoodPrefix(s)
    ensures s[..k] <= Encoded(c)
  {
    var fill: seq<Byte> := [0x80, 0x80, 0x80];
    var whole := s[..k] + fill[..SequenceLength(s[0]) - k];
    assert forall i :: 0 <= i < k ==> whole[i] == s[i];
    assert forall i :: k <= i < |whole| ==> whole[i] == 0x80;
    assert IsWhole(whole);
    WholeIsEncoded(whole);
    c := FirstChar(whole);
  }

  lemma StartIsWhole(s: seq<Byte>)
    requires s != [] && GoodPrefix(s) == SequenceLength(s[0])
    ensures IsWhole(s[..GoodPrefix(s)]) && FirstChar(s[..GoodPrefix(s)]) == FirstChar(s)
  {
    var whole := s[..GoodPrefix(s)];
    assert forall i :: 0 <= i < |whole| ==> whole[i] == s[i];
  }

  lemma EncodedInFront(s: seq<Byte>, c: char)
    requires Encoded(c) <= s
    ensures s != [] && FirstChar(s) == c && GoodPrefix(s) == |Encoded(c)|
  {
    EncodedCharDecodes(c, s[|Encoded(c)|..]);
    assert s == Encoded(c) + s[|Encoded(c)|..];
  }

  lemma WholeInFront(s: seq<Byte>)
    requires s != [] && GoodPrefix(s) == SequenceLength(s[0])
    ensures Encoded(FirstChar(s)) <= s
  {
    StartIsWhole(s);
    WholeIsEncoded(s[..GoodPrefix(s)]);
  }

  // What is decoded first: the character whose UTF-8 form stands at the front, or else a replacement character.
  lemma FirstCharIs(s: seq<Byte>)
    requires s != []
    ensures forall c :: Encoded(c) <= s ==> FirstChar(s) == c && GoodPrefix(s) == |Encoded(c)|
    ensures (forall c :: !(Encoded(c) <= s)) ==> FirstChar(s) as int == 0xFFFD
  {
    forall c | Encoded(c) <= s
      ensures FirstChar(s) == c && GoodPrefix(s) == |Encoded(c)|
    {
      EncodedInFront(s, c);
    }
    if GoodPrefix(s) == SequenceLength(s[0]) {
      WholeInFront(s);
    }
  }

  // What one character stands for: one byte, or the longest start of some character's UTF-8 form.
  lemma BeginsIff(s: seq<Byte>, k: nat)
    requires 2 <= k <= |s|
    ensures Decoded(s) == [FirstChar(s)] + Decoded(s[GoodPrefix(s)..])
    ensures k <= GoodPrefix(s) <==> exists c :: s[..k] <= Encoded(c)
  {
    if k <= GoodPrefix(s) {
      var c := CanBeCompleted(s, k);
    }
    forall c | s[..k] <= Encoded(c)
      ensures k <= GoodPrefix(s)
    {
      EncodedCharDecodes(c, []);
      assert Encoded(c) + [] == Encoded(c);
      assert Encoded(c)[..k] == s[..k];
      SameStart(s, Encoded(c), k);
    }
  }

  lemma JoinedStart(a: seq<Byte>, b: seq<Byte>)
    requires a != [] && (b == [] || !(0x80 <= b[0] <= 0xBF))
    ensures GoodPrefix(a + b) == GoodPrefix(a) && FirstChar(a + b) == FirstChar(a)
    ensures (a + b)[GoodPrefix(a)..] == a[GoodPrefix(a)..] + b
  {
    assert forall i :: 0 <= i < |a| ==> (a + b)[i] == a[i];
  }

  lemma DecodedCons(s: seq<Byte>, c: char, rest: seq<Byte>)
    requires s != [] && FirstChar(s) == c && s[GoodPrefix(s)..] == rest
    ensures Decoded(s) == [c] + Decoded(rest)
  {
  }

  lemma FirstDecoded(a: seq<Byte>, b: seq<Byte>) returns (c: char, rest: seq<Byte>)
    requires a != [] && (b == [] || !(0x80 <= b[0] <= 0xBF))
    ensures |rest| < |a| && rest == a[GoodPrefix(a)..]
    ensures Decoded(a) == [c] + Decoded(rest) && Decoded(a + b) == [c] + Decoded(rest + b)
  {
    c, rest := FirstChar(a), a[GoodPrefix(a)..];
    JoinedStart(a, b);
    DecodedCons(a, c, rest);
    DecodedCons(a + b, c, rest + b);
  }

  // Bytes are decoded piece by piece: wherever the next byte continues no sequence, the two sides are decoded by
  // themselves.
  lemma {:induction false} DecodedJoin(a: seq<Byte>, b: seq<Byte>)
    requires b == [] || !(0x80 <= b[0] <= 0xBF)
    ensures Decoded(a + b) == Decoded(a) + Decoded(b)
    decreases |a|
  {
    if a == [] {
      assert a + b == b;
    } else {
      var c, rest := FirstDecoded(a, b);
      DecodedJoin(rest, b);
      assert [c] + (Decoded(rest) + Decoded(b)) == ([c] + Decoded(rest)) + Decoded(b);
    }
  }

  // ------------------------------------------------------------------
  // Reading
  // ------------------------------------------------------------------

  // `labels` and `offset` are what is read and where reading goes on after `steps` elements.
  ghost predicate Reached(message: seq<Byte>, start: nat, steps: nat, labels: seq<Label>, offset: nat) {
    forall fuel: nat :: Meaning(message, start, fuel + steps) == Prepend(labels, Meaning(message, offset, fuel))
  }

  // From every visited offset at least one element has been read to get to `offset`.
  ghost predicate Behind(message: seq<Byte>, visited: set<nat>, offset: nat) {
    forall v, fuel: nat :: v in visited && Meaning(message, v, fuel).Some? ==>
      fuel > 0 && Meaning(message, offset, fuel - 1).Some?
  }

  ghost predicate Follows(message: seq<Byte>, offset: nat, next: nat) {
    forall fuel: nat :: Meaning(message, offset, fuel).Some? ==> fuel > 0 && Meaning(message, next, fuel - 1).Some?
  }

  lemma BehindStep(message: seq<Byte>, visited: set<nat>, offset: nat, next: nat)
    requires Behind(message, visited, offset) && Follows(message, offset, next)
    ensures Behind(message, visited + {offset}, next)
  {
    forall v, fuel: nat | v in visited + {offset} && Meaning(message, v, fuel).Some?
      ensures fuel > 0 && Meaning(message, next, fuel - 1).Some?
    {
      if v != offset {
        assert Meaning(message, offset, fuel - 1).Some?;
        MoreFuel(message, next, fuel - 2, fuel - 1);
      }
    }
  }

  lemma ReachedStart(message: seq<Byte>, start: nat)
    ensures Reached(message, start, 0, [], start)
  {
    forall fuel: nat
      ensures Meaning(message, start, fuel + 0) == Prepend([], Meaning(message, start, fuel))
    {
      var m := Meaning(message, start, fuel);
      if m.Some? && m.value.Ok? {
        assert [] + m.value.value == m.value.value;
      }
    }
  }

  lemma ReachedPointer(message: seq<Byte>, start: nat, steps: nat, labels: seq<Label>, offset: nat)
    requires Reached(message, start, steps, labels, offset) && ElementAt(message, offset).Pointer?
    ensures Reached(message, start, steps + 1, labels, ElementAt(message, offset).target)
    ensures Follows(message, offset, ElementAt(message, offset).target)
  {
    var target := ElementAt(message, offset).target;
    forall fuel: nat
      ensures Meaning(message, start, fuel + (steps + 1)) == Prepend(labels, Meaning(message, target, fuel))
    {
      assert Meaning(message, offset, fuel + 1) == Meaning(message, target, fuel);
      assert fuel + (steps + 1) == (fuel + 1) + steps;
    }
  }

  lemma ReachedLabel(message: seq<Byte>, start: nat, steps: nat, labels: seq<Label>, offset: nat)
    requires Reached(message, start, steps, labels, offset) && ElementAt(message, offset).Text?
    ensures Reached(message, start, steps + 1, labels + [ElementAt(message, offset).text], ElementAt(message, offset).next)
    ensures Follows(message, offset, ElementAt(message, offset).next)
  {
    var text, next := ElementAt(message, offset).text, ElementAt(message, offset).next;
    forall fuel: nat
      ensures Meaning(message, start, fuel + (steps + 1)) == Prepend(labels + [text], Meaning(message, next, fuel))
    {
      var m := Meaning(message, next, fuel);
      assert Meaning(message, offset, fuel + 1) == Prepend([text], m);
      assert fuel + (steps + 1) == (fuel + 1) + steps;
      if m.Some? && m.value.Ok? {
        assert labels + ([text] + m.value.value) == labels + [text] + m.value.value;
      }
    }
  }

  // Reading stops at the root or at something malformed.
  lemma ReachedStop(message: seq<Byte>, start: nat, steps: nat, labels: seq<Label>, offset: nat, r: Result<Name, DnsError>)
    requires Reached(message, start, steps, labels, offset)
    requires ElementAt(message, offset).Root? || ElementAt(message, offset).Bad?
    requires r == if ElementAt(message, offset).Root? then Ok(Name(labels, EndOf(message, start)))
                  else Err(ElementAt(message, offset).error)
    ensures Right(message, start, r)
  {
    var full := 1 + steps;
    assert Meaning(message, start, full) == Prepend(labels, Meaning(message, offset, 1));
    assert labels + [] == labels;
    forall fuel: nat | Meaning(message, start, fuel).Some?
      ensures Meaning(message, start, fuel) == Meaning(message, start, full)
    {
      if fuel <= full {
        MoreFuel(message, start, fuel, full);
      } else {
        MoreFuel(message, start, full, fuel);
      }
    }
  }

  // An offset that is behind itself is never decided.
  lemma {:induction false} NoMeaningInCycle(message: seq<Byte>, offset: nat, fuel: nat)
    requires Follows(message, offset, offset)
    ensures Meaning(message, offset, fuel).None?
  {
    if fuel > 0 {
      NoMeaningInCycle(message, offset, fuel - 1);
    }
  }

  lemma ReachedCycle(message: seq<Byte>, start: nat, steps: nat, labels: seq<Label>, offset: nat, visited: set<nat>)
    requires Reached(message, start, steps, labels, offset) && Behind(message, visited, offset) && offset in visited
    ensures Right(message, start, Err(InvalidName))
  {
    forall fuel: nat
      ensures Meaning(message, start, fuel).None?
    {
      NoMeaningInCycle(message, offset, fuel);
      assert Meaning(message, start, fuel + steps).None?;
      if Meaning(message, start, fuel).Some? {
        MoreFuel(message, start, fuel, fuel + steps);
      }
    }
  }

  // The loop's state: what has been read, and that every visited offset is behind it.
  ghost predicate Progress(message: seq<Byte>, start: nat, steps: nat, labels: seq<Label>, offset: nat, visited: set<nat>) {
    Reached(message, start, steps, labels, offset) && Behind(message, visited, offset)
  }

  lemma ProgressPointer(message: seq<Byte>, start: nat, steps: nat, labels: seq<Label>, offset: nat, visited: set<nat>,
      target: nat)
    requires Progress(message, start, steps, labels, offset, visited) && ElementAt(message, offset) == Pointer(target)
    ensures Progress(message, start, steps + 1, labels, target, visited + {offset})
  {
    ReachedPointer(message, start, steps, labels, offset);
    BehindStep(message, visited, offset, target);
  }

  lemma ProgressLabel(message: seq<Byte>, start: nat, steps: nat, labels: seq<Label>, offset: nat, visited: set<nat>,
      text: Label, next: nat)
    requires Progress(message, start, steps, labels, offset, visited) && ElementAt(message, offset) == Element.Text(text, next)
    ensures Progress(message, start, steps + 1, labels + [text], next, visited + {offset})
  {
    ReachedLabel(message, start, steps, labels, offset);
    BehindStep(message, visited, offset, next);
  }

  lemma {:induction false} BoundedSet(s: set<nat>, n: nat)
    requires forall x :: x in s ==> x < n
    ensures |s| <= n
  {
    if n == 0 {
      assert s == {};
    } else {
      BoundedSet(s - {n - 1}, n - 1);
      assert |s - {n - 1}| >= |s| - 1;
    }
  }

  lemma {:induction false} DecodedSnoc(labels: seq<Label>, last: Label)
    ensures DecodedAll(labels + [last]) == DecodedAll(labels) + [Decoded(last)]
  {
    if labels == [] {
      assert [last][1..] == [];
    } else {
      DecodedSnoc(labels[1..], last);
      assert (labels + [last])[0] == labels[0] && (labels + [last])[1..] == labels[1..] + [last];
    }
  }

  method ReadDnsName(message: seq<Byte>, start: nat) returns (r: Result<Name, DnsError>, text: string)
    ensures Right(message, start, r)
    ensures r.Ok? ==> text == NameText(r.value.labels)
  {
    text := "";
    var texts: seq<string> := [];
    var offset: nat, labels: seq<Label>, nextOffset: Option<nat> := start, [], None;
    var visited: set<nat> := {};
    ghost var steps := 0;
    ReachedStart(message, start);
    while true
      invariant Progress(message, start, steps, labels, offset, visited)
      invariant EndOf(message, start) == if nextOffset.Some? then nextOffset.value else EndOf(message, offset)
      invariant forall v :: v in visited ==> v < |message|
      invariant texts == DecodedAll(labels)
      decreases |message| - |visited|
    {
      if offset >= |message| {
        ReachedStop(message, start, steps, labels, offset, Err(InvalidName));
        return Err(InvalidName), text;
      }
      if offset in visited {
        ReachedCycle(message, start, steps, labels, offset, visited);
        return Err(InvalidName), text;
      }
      BoundedSet(visited + {offset}, |message|);
      ghost var at, seen := offset, visited;
      visited := visited + {offset};
      var length: int := message[offset];
      if length >= 0xC0 {
        if offset + 1 >= |message| {
          ReachedStop(message, start, steps, labels, offset, Err(InvalidPointer));
          return Err(InvalidPointer), text;
        }
        if nextOffset.None? {
          nextOffset := Some(offset + 2);
        }
        offset := (length - 0xC0) * 256 + message[offset + 1] as int;
        ProgressPointer(message, start, steps, labels, at, seen, offset);
        steps := steps + 1;
      } else if length == 0 {
        r := Ok(Name(labels, if nextOffset.Some? then nextOffset.value else offset + 1));
        ReachedStop(message, start, steps, labels, offset, r);
        text := if texts == [] then "" else JoinDots(texts);
        return;
      } else if length > 63 || offset + 1 + length > |message| {
        ReachedStop(message, start, steps, labels, offset, Err(InvalidLabel));
        return Err(InvalidLabel), text;
      } else {
        var bytes := message[offset + 1..offset + 1 + length];
        offset := offset + 1 + length;
        ProgressLabel(message, start, steps, labels, at, seen, bytes, offset);
        DecodedSnoc(labels, bytes);
        labels := labels + [bytes];
        texts := texts + [Decoded(bytes)];
        steps := steps + 1;
      }
    }
  }

  // ------------------------------------------------------------------
  // Writing
  // ------------------------------------------------------------------

  datatype EncodeError = LabelTooLong | NotAscii

  function RStripDots(name: string): (kept: string)
    ensures kept <= name && forall i :: |kept| <= i < |name| ==> name[i] == '.'
    ensures kept != "" ==> kept[|kept| - 1] != '.'
  {
    if name != "" && name[|name| - 1] == '.' then RStripDots(name[..|name| - 1]) else name
  }

  function SplitDots(name: string): (labels: seq<string>)
    ensures labels != []
    ensures forall l, i :: 0 <= l < |labels| && 0 <= i < |labels[l]| ==> labels[l][i] != '.'
  {
    if name == "" then [""]
    else if name[0] == '.' then [""] + SplitDots(name[1..])
    else
      var rest := SplitDots(name[1..]);
      [[name[0]] + rest[0]] + rest[1..]
  }

  function JoinDots(labels: seq<string>): string
    requires labels != []
  {
    if |labels| == 1 then labels[0] else labels[0] + "." + JoinDots(labels[1..])
  }

  predicate IsAscii(text: string) {
    forall i :: 0 <= i < |text| ==> text[i] as int < 128
  }

  function Bytes(text: string): Label
    requires IsAscii(text)
  {
    seq(|text|, i requires 0 <= i < |text| => text[i] as int)
  }

  // One byte holds the length, so a longer label raises an error, as does one that is not ASCII.
  function EncodeLabels(labels: seq<string>): Result<seq<Byte>, EncodeError> {
    if labels == [] then Ok([])
    else if |labels[0]| > 255 then Err(LabelTooLong)
    else if !IsAscii(labels[0]) then Err(NotAscii)
    else
      match EncodeLabels(labels[1..])
      case Ok(rest) => Ok([|labels[0]|] + Bytes(labels[0]) + rest)
      case Err(e) => Err(e)
  }

  function EncodeDnsName(name: string): Result<seq<Byte>, EncodeError> {
    match EncodeLabels(SplitDots(RStripDots(name)))
    case Ok(encoded) => Ok(encoded + [0])
    case Err(e) => Err(e)
  }

  predicate Encodable(text: string) {
    |text| <= 255 && IsAscii(text)
  }

  ghost predicate AllEncodable(labels: seq<string>) {
    forall i :: 0 <= i < |labels| ==> Encodable(labels[i])
  }

  // The first label that cannot be written decides the error.
  ghost predicate FailsFirst(labels: seq<string>, i: nat, e: EncodeError) {
    && i < |labels| && !Encodable(labels[i]) && (forall j :: 0 <= j < i ==> Encodable(labels[j]))
    && e == if |labels[i]| > 255 then LabelTooLong else NotAscii
  }

  lemma {:induction false} LabelsEncodeIff(labels: seq<string>)
    ensures EncodeLabels(labels).Ok? <==> AllEncodable(labels)
    ensures EncodeLabels(labels).Err? ==> exists i :: FailsFirst(labels, i, EncodeLabels(labels).error)
  {
    if labels != [] {
      var rest := labels[1..];
      LabelsEncodeIff(rest);
      assert forall i :: 1 <= i < |labels| ==> labels[i] == rest[i - 1];
      if !Encodable(labels[0]) {
        assert FailsFirst(labels, 0, EncodeLabels(labels).error);
      } else if EncodeLabels(rest).Err? {
        var k: nat :| FailsFirst(rest, k, EncodeLabels(rest).error);
        assert FailsFirst(labels, k + 1, EncodeLabels(labels).error);
      }
    }
  }

  // A name can be written if and only if its labels have at most 255 characters, all of them ASCII.
  lemma EncodesIff(name: string)
    ensures
      var labels := SplitDots(RStripDots(name));
      && (EncodeDnsName(name).Ok? <==> AllEncodable(labels))
      && (EncodeDnsName(name).Err? ==> exists i :: FailsFirst(labels, i, EncodeDnsName(name).error))
  {
    LabelsEncodeIff(SplitDots(RStripDots(name)));
  }

  // The labels of a text, as bytes.
  ghost predicate Spells(labels: seq<Label>, texts: seq<string>) {
    && |labels| == |texts|
    && forall i :: 0 <= i < |texts| ==> IsAscii(texts[i]) && labels[i] == Bytes(texts[i])
  }

  ghost predicate Standard(labels: seq<string>) {
    forall i :: 0 <= i < |labels| ==> 1 <= |labels[i]| <= 63
  }

  // ------------------------------------------------------------------
  // Round trip
  // ------------------------------------------------------------------

  lemma JoinAfterDot(rest: seq<string>)
    requires rest != []
    ensures JoinDots([""] + rest) == "." + JoinDots(rest)
  {
  }

  lemma JoinWithChar(c: char, rest: seq<string>)
    requires rest != []
    ensures JoinDots([[c] + rest[0]] + rest[1..]) == [c] + JoinDots(rest)
  {
  }

  lemma {:induction false} SplitThenJoin(name: string)
    ensures JoinDots(SplitDots(name)) == name
  {
    if name != "" {
      SplitThenJoin(name[1..]);
      JoinAfterDot(SplitDots(name[1..]));
      JoinWithChar(name[0], SplitDots(name[1..]));
      assert name == [name[0]] + name[1..];
    }
  }

  // What an encoded label reads as, wherever it stands.
  lemma LabelElement(before: seq<Byte>, text: string, after: seq<Byte>)
    requires 1 <= |text| <= 63 && IsAscii(text)
    ensures
      var message := before + [|text|] + Bytes(text) + after;
      ElementAt(message, |before|) == Element.Text(Bytes(text), |before| + 1 + |text|)
  {
  }

  lemma Layout(before: seq<Byte>, length: Byte, bytes: seq<Byte>, rest: seq<Byte>, after: seq<Byte>)
    ensures before + ([length] + bytes + rest + [0]) + after == before + [length] + bytes + (rest + [0] + after)
    ensures before + ([length] + bytes + rest + [0]) + after == (before + ([length] + bytes)) + (rest + [0]) + after
  {
  }

  ghost predicate ReadsAs(message: seq<Byte>, offset: nat, texts: seq<string>, fuel: nat, end: nat) {
    && Meaning(message, offset, fuel).Some? && Meaning(message, offset, fuel).value.Ok?
    && Spells(Meaning(message, offset, fuel).value.value, texts)
    && EndOf(message, offset) == end
  }

  lemma ReadsAsStep(message: seq<Byte>, offset: nat, texts: seq<string>, fuel: nat, next: nat, end: nat)
    requires texts != [] && IsAscii(texts[0]) && fuel > 0
    requires ElementAt(message, offset) == Element.Text(Bytes(texts[0]), next)
    requires ReadsAs(message, next, texts[1..], fuel - 1, end)
    ensures ReadsAs(message, offset, texts, fuel, end)
  {
  }

  // An encoded name is its first label and an encoded name.
  lemma EncodedHead(message: seq<Byte>, before: seq<Byte>, texts: seq<string>, after: seq<Byte>) returns (front: seq<Byte>)
    requires EncodeLabels(texts).Ok? && Standard(texts) && texts != []
    requires message == before + (EncodeLabels(texts).value + [0]) + after
    ensures EncodeLabels(texts[1..]).Ok? && IsAscii(texts[0])
    ensures message == front + (EncodeLabels(texts[1..]).value + [0]) + after
    ensures ElementAt(message, |before|) == Element.Text(Bytes(texts[0]), |front|)
    ensures |front| + |EncodeLabels(texts[1..]).value| == |before| + |EncodeLabels(texts).value|
  {
    var length, bytes, rest := |texts[0]|, Bytes(texts[0]), EncodeLabels(texts[1..]).value;
    front := before + ([length] + bytes);
    Layout(before, length, bytes, rest, after);
    LabelElement(before, texts[0], rest + [0] + after);
  }

  lemma {:induction false} EncodedMeans(message: seq<Byte>, before: seq<Byte>, texts: seq<string>, after: seq<Byte>, fuel: nat)
    requires EncodeLabels(texts).Ok? && Standard(texts) && fuel > |texts|
    requires message == before + (EncodeLabels(texts).value + [0]) + after
    ensures ReadsAs(message, |before|, texts, fuel, |before| + |EncodeLabels(texts).value| + 1)
    decreases |texts|
  {
    if texts == [] {
      assert message[|before|] == 0;
    } else {
      var front := EncodedHead(message, before, texts, after);
      EncodedMeans(message, front, texts[1..], after, fuel - 1);
      ReadsAsStep(message, |before|, texts, fuel, |front|, |front| + |EncodeLabels(texts[1..]).value| + 1);
    }
  }

  lemma {:induction false} LabelsAreStandard(message: seq<Byte>, offset: nat, fuel: nat)
    requires Meaning(message, offset, fuel).Some? && Meaning(message, offset, fuel).value.Ok?
    ensures forall i :: 0 <= i < |Meaning(message, offset, fuel).value.value| ==>
              1 <= |Meaning(message, offset, fuel).value.value[i]| <= 63
    decreases fuel
  {
    match ElementAt(message, offset)
    case Root =>
    case Text(_, next) => LabelsAreStandard(message, next, fuel - 1);
    case Pointer(target) => LabelsAreStandard(message, target, fuel - 1);
    case Bad(_) =>
  }

  lemma {:induction false} AsciiDecodes(text: string)
    requires IsAscii(text)
    ensures Decoded(Bytes(text)) == text
  {
    if text != "" {
      var rest := text[1..];
      AsciiDecodes(rest);
      assert Bytes(text)[1..] == Bytes(rest);
    }
  }

  lemma {:induction false} SpelledDecodes(labels: seq<Label>, texts: seq<string>)
    requires Spells(labels, texts)
    ensures DecodedAll(labels) == texts
  {
    if labels != [] {
      AsciiDecodes(texts[0]);
      SpelledDecodes(labels[1..], texts[1..]);
      assert texts == [texts[0]] + texts[1..];
    }
  }

  // Reading what was written gives the labels back and stops right behind them, at any offset of any message,
  // exactly for the names whose labels have 1 to 63 characters.
  lemma RoundTripIff(before: seq<Byte>, name: string, after: seq<Byte>, r: Result<Name, DnsError>)
    requires EncodeDnsName(name).Ok?
    requires Right(before + EncodeDnsName(name).value + after, |before|, r)
    ensures
      var labels := SplitDots(RStripDots(name));
      && (Standard(labels) <==> r.Ok? && Spells(r.value.labels, labels))
      && (Standard(labels) ==>
            r.value.next == |before| + |EncodeDnsName(name).value| && NameText(r.value.labels) == RStripDots(name))
  {
    var labels := SplitDots(RStripDots(name));
    var message := before + EncodeDnsName(name).value + after;
    SplitThenJoin(RStripDots(name));
    if Standard(labels) {
      EncodedMeans(message, before, labels, after, |labels| + 1);
      assert Meaning(message, |before|, |labels| + 1).Some?;
      SpelledDecodes(r.value.labels, labels);
    }
    if r.Ok? {
      var fuel: nat :| Meaning(message, |before|, fuel).Some?;
      LabelsAreStandard(message, |before|, fuel);
      if Spells(r.value.labels, labels) {
        forall i | 0 <= i < |labels|
          ensures 1 <= |labels[i]| <= 63
        {
          assert r.value.labels[i] == Bytes(labels[i]);
        }
      }
    }
  }

  // The empty name is written as two zero bytes, and reading it leaves the second one behind.
  lemma EmptyNameIsTwoBytes(before: seq<Byte>, r: Result<Name, DnsError>)
    requires Right(before + [0, 0], |before|, r)
    ensures EncodeDnsName("") == Ok([0, 0])
    ensures r == Ok(Name([], |before| + 1))
  {
    var message := before + [0, 0];
    assert message[|before|] == 0;
    assert Meaning(message, |before|, 1) == Some(Ok([]));
    assert EncodeLabels([""]) == Ok([0]) by {
      assert [""][1..] == [];
      assert EncodeLabels([]) == Ok([]);
      assert [0] + Bytes("") + [] == [0];
    }
    assert SplitDots(RStripDots("")) == [""];
    assert [0] + [0] == [0, 0];
  }
}
