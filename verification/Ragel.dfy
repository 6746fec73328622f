/** RagelParser: driving a generated state machine over an input that arrives in pieces. */
module Ragel {
  import opened Common
  import opened Chunks

  type byte = bv8

  /** What a transition does while `p` still points at its character. */
  datatype Op = Mark | Unmark | Emit

  /** A generated machine: states are numbers, one transition per state and character. */
  datatype Machine = Machine(
    start: int,
    next: (int, byte) -> int,
    ops: (int, byte) -> seq<Op>,
    eofOps: int -> seq<Op>,
    final: int -> bool,
    error: int -> bool)

  ghost predicate Wellformed(m: Machine) {
    && !m.error(m.start)
    && forall s :: !(m.final(s) && m.error(s))
  }

  /** State of a parse over one flat text: `mark` and `p` are offsets into it. */
  datatype Conf = Conf(cs: int, mark: Option<nat>, p: nat, tokens: seq<seq<byte>>)

  predicate Inside(c: Conf, text: seq<byte>) { c.p <= |text| && (c.mark.Some? ==> c.mark.value <= c.p) }

  function Emitted(c: Conf, text: seq<byte>): seq<byte>
    requires Inside(c, text)
  {
    if c.mark.Some? then text[c.mark.value..c.p] else []
  }

  function Do(c: Conf, ops: seq<Op>, text: seq<byte>): (r: Conf)
    requires Inside(c, text)
    ensures r.cs == c.cs && r.p == c.p && Inside(r, text)
    decreases |ops|
  {
    if ops == [] then c
    else
      var c1 := match ops[0]
        case Mark => c.(mark := Some(c.p))
        case Unmark => c.(mark := None)
        case Emit => c.(tokens := c.tokens + [Emitted(c, text)]);
      Do(c1, ops[1..], text)
  }

  /** One transition; an error leaves `p` at the offending character. */
  function Step(m: Machine, c: Conf, text: seq<byte>): (r: Conf)
    requires Inside(c, text) && c.p < |text|
    ensures Inside(r, text)
  {
    var c1 := Do(c, m.ops(c.cs, text[c.p]), text);
    var s := m.next(c.cs, text[c.p]);
    if m.error(s) then c1.(cs := s) else c1.(cs := s, p := c.p + 1)
  }

  /** exec() without end of file: transitions until `pe` or an error. */
  function Scan(m: Machine, c: Conf, text: seq<byte>, pe: nat): (r: Conf)
    requires Inside(c, text) && c.p <= pe <= |text|
    ensures Inside(r, text) && c.p <= r.p <= pe && (r.p == pe || m.error(r.cs))
    decreases pe - c.p, !m.error(c.cs)
  {
    if c.p == pe || m.error(c.cs) then c else Scan(m, Step(m, c, text), text, pe)
  }

  /** The end-of-file actions, which an error skips. */
  function AtEof(m: Machine, c: Conf, text: seq<byte>): (r: Conf)
    requires Inside(c, text)
    ensures Inside(r, text) && r.p == c.p && r.cs == c.cs
  {
    if m.error(c.cs) then c else Do(c, m.eofOps(c.cs), text)
  }

  /** exec() to the end of the text. */
  function Ran(m: Machine, c: Conf, text: seq<byte>, isEof: bool): (r: Conf)
    requires Inside(c, text)
    ensures Inside(r, text) && c.p <= r.p
  {
    var c1 := Scan(m, c, text, |text|);
    if isEof then AtEof(m, c1, text) else c1
  }

  function Start(m: Machine): Conf { Conf(m.start, None, 0, []) }

  /** run(buffer, length): the whole text at once. */
  function Whole(m: Machine, text: seq<byte>): (r: Conf)
    ensures Inside(r, text)
  {
    Ran(m, Start(m), text, true)
  }

  // ----- scanning in pieces, scanning elsewhere -----

  lemma {:induction false} DoFramed(c: Conf, ops: seq<Op>, text: seq<byte>, more: seq<byte>)
    requires Inside(c, text)
    ensures Do(c, ops, text + more) == Do(c, ops, text)
    decreases |ops|
  {
    if ops != [] {
      assert Emitted(c, text + more) == Emitted(c, text);
      var c1 := match ops[0]
        case Mark => c.(mark := Some(c.p))
        case Unmark => c.(mark := None)
        case Emit => c.(tokens := c.tokens + [Emitted(c, text)]);
      DoFramed(c1, ops[1..], text, more);
    }
  }

  /** Text that has not been reached does not matter. */
  lemma {:induction false} ScanFramed(m: Machine, c: Conf, text: seq<byte>, more: seq<byte>, pe: nat)
    requires Inside(c, text) && c.p <= pe <= |text|
    ensures Scan(m, c, text + more, pe) == Scan(m, c, text, pe)
    decreases pe - c.p, !m.error(c.cs)
  {
    if c.p < pe && !m.error(c.cs) {
      DoFramed(c, m.ops(c.cs, text[c.p]), text, more);
      ScanFramed(m, Step(m, c, text), text, more, pe);
    }
  }

  /** A scan may be interrupted anywhere. */
  lemma {:induction false} ScanSplit(m: Machine, c: Conf, text: seq<byte>, mid: nat, pe: nat)
    requires Inside(c, text) && c.p <= mid <= pe <= |text|
    ensures Scan(m, Scan(m, c, text, mid), text, pe) == Scan(m, c, text, pe)
    decreases mid - c.p, !m.error(c.cs)
  {
    if c.p < mid && !m.error(c.cs) { ScanSplit(m, Step(m, c, text), text, mid, pe); }
  }

  /** The same configuration in a text with something in front. */
  function Shift(c: Conf, n: nat): Conf {
    c.(mark := if c.mark.Some? then Some(c.mark.value + n) else None, p := c.p + n)
  }

  lemma {:induction false} DoShifted(c: Conf, ops: seq<Op>, front: seq<byte>, text: seq<byte>)
    requires Inside(c, text)
    ensures Do(Shift(c, |front|), ops, front + text) == Shift(Do(c, ops, text), |front|)
    decreases |ops|
  {
    if ops != [] {
      assert Emitted(Shift(c, |front|), front + text) == Emitted(c, text);
      var c1 := match ops[0]
        case Mark => c.(mark := Some(c.p))
        case Unmark => c.(mark := None)
        case Emit => c.(tokens := c.tokens + [Emitted(c, text)]);
      DoShifted(c1, ops[1..], front, text);
    }
  }

  lemma StepShifted(m: Machine, c: Conf, front: seq<byte>, text: seq<byte>)
    requires Inside(c, text) && c.p < |text|
    ensures Step(m, Shift(c, |front|), front + text) == Shift(Step(m, c, text), |front|)
  {
    DoShifted(c, m.ops(c.cs, text[c.p]), front, text);
  }

  lemma {:induction false} ScanShifted(m: Machine, c: Conf, front: seq<byte>, text: seq<byte>)
    requires Inside(c, text)
    ensures Scan(m, Shift(c, |front|), front + text, |front| + |text|) == Shift(Scan(m, c, text, |text|), |front|)
    decreases |text| - c.p, !m.error(c.cs)
  {
    if c.p < |text| && !m.error(c.cs) {
      StepShifted(m, c, front, text);
      ScanShifted(m, Step(m, c, text), front, text);
    }
  }

  // ----- feeding -----

  /** What one partial run() is handed; an empty piece may have a null address. */
  datatype Piece = Piece(bytes: seq<byte>, atNull: bool)

  predicate Proper(x: Piece) { x.atNull ==> x.bytes == [] }

  function Text(pieces: seq<Piece>): seq<byte> {
    if pieces == [] then [] else Text(pieces[..|pieces| - 1]) + pieces[|pieces| - 1].bytes
  }

  /** A partial run leaves `eof` null. With no mark, `p` and `pe` of a piece at a null address are
      null too, and the machine takes that for the end of the file. */
  predicate TakenForEof(c: Conf, atNull: bool) { atNull && c.mark == None }

  /** Successive partial run() calls, none of them after an error. */
  function Feed(m: Machine, pieces: seq<Piece>): (r: Conf)
    ensures Inside(r, Text(pieces)) && (m.error(r.cs) || r.p == |Text(pieces)|)
    decreases |pieces|
  {
    if pieces == [] then Start(m)
    else
      var c := Feed(m, pieces[..|pieces| - 1]);
      var x := pieces[|pieces| - 1];
      if m.error(c.cs) then c else Ran(m, c, Text(pieces), TakenForEof(c, x.atNull))
  }

  /** The configuration after one scan over the first k pieces. */
  function After(m: Machine, pieces: seq<Piece>, k: nat): (r: Conf)
    requires k <= |pieces|
    ensures Inside(r, Text(pieces[..k]))
  {
    Scan(m, Start(m), Text(pieces[..k]), |Text(pieces[..k])|)
  }

  /** An end of file seen here would change nothing. */
  predicate Harmless(m: Machine, c: Conf, text: seq<byte>)
    requires Inside(c, text)
  {
    m.error(c.cs) || c.mark.Some? || Do(c, m.eofOps(c.cs), text) == c
  }

  predicate HarmlessAt(m: Machine, pieces: seq<Piece>, k: nat)
    requires k < |pieces|
  {
    pieces[k].atNull ==> Harmless(m, After(m, pieces, k), Text(pieces[..k]))
  }

  /** After k pieces the partial runs are where one scan would be. */
  predicate Agrees(m: Machine, pieces: seq<Piece>, k: nat)
    requires k <= |pieces|
  {
    Feed(m, pieces[..k]) == After(m, pieces, k)
  }

  lemma NothingFed(m: Machine, pieces: seq<Piece>)
    ensures Agrees(m, pieces, 0)
  {
    assert pieces[..0] == [];
  }

  /** One more piece. */
  lemma FeedStep(m: Machine, pieces: seq<Piece>, k: nat)
    requires k < |pieces| && Proper(pieces[k]) && Agrees(m, pieces, k)
    ensures Agrees(m, pieces, k + 1) <==> HarmlessAt(m, pieces, k)
  {
    var ps := pieces[..k + 1];
    assert ps[..k] == pieces[..k] && ps[k] == pieces[k];
    var t := Text(pieces[..k]);
    var u := Text(ps);
    assert u == t + pieces[k].bytes;
    ScanFramed(m, Start(m), t, pieces[k].bytes, |t|);
    ScanSplit(m, Start(m), u, |t|, |u|);
    if pieces[k].atNull { assert u == t; }
  }

  /** Chunk invariance: partial runs over any partition of the input, empty pieces included, are at every
      point in the configuration of one scan over the whole, exactly if no piece at a null address
      comes where the end-of-file actions would do something. */
  lemma {:induction false} ChunkInvariance(m: Machine, pieces: seq<Piece>, n: nat)
    requires n <= |pieces| && forall x :: x in pieces ==> Proper(x)
    ensures (forall k :: 0 <= k <= n ==> Agrees(m, pieces, k)) <==>
            (forall k :: 0 <= k < n ==> HarmlessAt(m, pieces, k))
  {
    hide Agrees, HarmlessAt;
    NothingFed(m, pieces);
    if n > 0 {
      ChunkInvariance(m, pieces, n - 1);
      assert pieces[n - 1] in pieces;
      if Agrees(m, pieces, n - 1) { FeedStep(m, pieces, n - 1); }
    }
  }

  /** In particular over any partition into pieces that have an address. */
  lemma AddressedPieces(m: Machine, pieces: seq<Piece>)
    requires forall x :: x in pieces ==> !x.atNull
    ensures Feed(m, pieces) == Scan(m, Start(m), Text(pieces), |Text(pieces)|)
  {
    ChunkInvariance(m, pieces, |pieces|);
    assert Agrees(m, pieces, |pieces|);
    assert pieces[..|pieces|] == pieces;
  }

  /** Nothing but an end-of-file action. */
  function Ending(): Machine {
    Machine(0, (s: int, b: byte) => 0, (s: int, b: byte) => [], (s: int) => [Emit], s => true, s => false)
  }

  /** An empty piece at a null address: a token that is not there. */
  lemma NullPieceEmits()
    ensures Feed(Ending(), [Piece([], true)]).tokens == [[]]
    ensures Scan(Ending(), Start(Ending()), Text([Piece([], true)]), 0).tokens == []
  {
    var m := Ending();
    var ps := [Piece([], true)];
    assert ps[..0] == [] && Text(ps) == [];
    assert Feed(m, ps[..0]) == Start(m);
    assert [Emit][1..] == [];
    assert Do(Start(m), [Emit], []) == Start(m).(tokens := [[]]);
  }

  // ----- run(const Buffer &) -----

  /** The loop over the pieces of a Buffer, which stops at a piece that ends in a final state. */
  function Pieces(m: Machine, c: Conf, fed: seq<byte>, chunks: seq<seq<byte>>): Conf
    requires Inside(c, fed) && c.p == |fed|
    decreases |chunks|
  {
    if chunks == [] then AtEof(m, c, fed)
    else
      var fed1 := fed + chunks[0];
      var c1 := Scan(m, c, fed1, |fed1|);
      if m.error(c1.cs) then c1
      else if m.final(c1.cs) then AtEof(m, c1, fed1)
      else Pieces(m, c1, fed1, chunks[1..])
  }

  /** Some text is left over when a piece has ended in a final state. */
  predicate StopsShort(m: Machine, c: Conf, fed: seq<byte>, chunks: seq<seq<byte>>)
    requires Inside(c, fed) && c.p == |fed|
    decreases |chunks|
  {
    if chunks == [] then false
    else
      var fed1 := fed + chunks[0];
      var c1 := Scan(m, c, fed1, |fed1|);
      if m.error(c1.cs) then false
      else if m.final(c1.cs) then Flatten(chunks[1..]) != []
      else StopsShort(m, c1, fed1, chunks[1..])
  }

  lemma {:induction false} PiecesIsWhole(m: Machine, c: Conf, fed: seq<byte>, chunks: seq<seq<byte>>, text: seq<byte>)
    requires Wellformed(m) && Inside(c, fed) && c.p == |fed| && text == fed + Flatten(chunks)
    ensures Pieces(m, c, fed, chunks) == AtEof(m, Scan(m, c, text, |text|), text) <==> !StopsShort(m, c, fed, chunks)
    decreases |chunks|
  {
    if chunks == [] {
      assert text == fed;
    } else {
      var fed1 := fed + chunks[0];
      var rest := Flatten(chunks[1..]);
      var c1 := Scan(m, c, fed1, |fed1|);
      assert text == fed1 + rest;
      ScanFramed(m, c, fed1, rest, |fed1|);
      ScanSplit(m, c, text, |fed1|, |text|);
      if !m.error(c1.cs) {
        if m.final(c1.cs) {
          if rest == [] { assert text == fed1; }
        } else {
          PiecesIsWhole(m, c1, fed1, chunks[1..], text);
        }
      }
    }
  }

  /** After the first k pieces, taken as one text, the machine is complete, and more text follows. */
  predicate CompleteEarly(m: Machine, chunks: seq<seq<byte>>, k: nat)
    requires k <= |chunks|
  {
    var text := Flatten(chunks[..k]);
    k > 0 && m.final(Scan(m, Start(m), text, |text|).cs) && Flatten(chunks[k..]) != []
  }

  /** The loop, after j pieces none of which ended complete. */
  lemma {:induction false} ShortIsEarly(m: Machine, chunks: seq<seq<byte>>, j: nat, fed: seq<byte>, c: Conf)
    requires Wellformed(m) && j <= |chunks| && fed == Flatten(chunks[..j]) && c == Scan(m, Start(m), fed, |fed|) &&
             !m.error(c.cs)
    requires forall k :: 0 < k <= j ==> !CompleteEarly(m, chunks, k)
    ensures StopsShort(m, c, fed, chunks[j..]) <==> exists k :: 0 < k <= |chunks| && CompleteEarly(m, chunks, k)
    decreases |chunks| - j
  {
    if j < |chunks| {
      var fed1 := fed + chunks[j];
      var c1 := Scan(m, c, fed1, |fed1|);
      assert chunks[j..][0] == chunks[j] && chunks[j..][1..] == chunks[j + 1..];
      FlattenSnoc(chunks, j);
      assert fed1 == Flatten(chunks[..j + 1]);
      ScanFramed(m, Start(m), fed, chunks[j], |fed|);
      ScanSplit(m, Start(m), fed1, |fed|, |fed1|);
      if m.error(c1.cs) {
        forall k | j < k <= |chunks| ensures !CompleteEarly(m, chunks, k) { ErrorStays(m, chunks, j + 1, k); }
      } else if m.final(c1.cs) {
        if Flatten(chunks[j + 1..]) == [] {
          forall k | j < k <= |chunks| ensures !CompleteEarly(m, chunks, k) { EmptyTail(chunks, j + 1, k); }
        } else {
          assert CompleteEarly(m, chunks, j + 1);
        }
      } else {
        ShortIsEarly(m, chunks, j + 1, fed1, c1);
      }
    }
  }

  lemma ErrorStays(m: Machine, chunks: seq<seq<byte>>, j: nat, k: nat)
    requires j <= k <= |chunks|
    ensures var t := Flatten(chunks[..j]); var u := Flatten(chunks[..k]);
            m.error(Scan(m, Start(m), t, |t|).cs) ==> m.error(Scan(m, Start(m), u, |u|).cs)
  {
    var t, u := Flatten(chunks[..j]), Flatten(chunks[..k]);
    FlattenSplit(chunks[..k], j);
    assert chunks[..k][..j] == chunks[..j];
    ScanFramed(m, Start(m), t, Flatten(chunks[..k][j..]), |t|);
    ScanSplit(m, Start(m), u, |t|, |u|);
  }

  lemma EmptyTail(chunks: seq<seq<byte>>, j: nat, k: nat)
    requires j <= k <= |chunks| && Flatten(chunks[j..]) == []
    ensures Flatten(chunks[k..]) == []
  {
    FlattenSplit(chunks[j..], k - j);
    assert chunks[j..][k - j..] == chunks[k..];
  }

  /** run(const Buffer &) agrees with a run over the same bytes in one piece exactly when no piece
      but the last ends, after all the text before it, in a final state. */
  lemma BufferAgreesIff(m: Machine, chunks: seq<seq<byte>>)
    requires Wellformed(m)
    ensures Pieces(m, Start(m), [], chunks) == Whole(m, Flatten(chunks))
       <==> !exists k :: 0 < k <= |chunks| && CompleteEarly(m, chunks, k)
  {
    assert [] + Flatten(chunks) == Flatten(chunks) && chunks[0..] == chunks;
    PiecesIsWhole(m, Start(m), [], chunks, Flatten(chunks));
    ShortIsEarly(m, chunks, 0, [], Start(m));
  }

  /** One or more letters 'a'. */
  function Letters(): Machine {
    Machine(0, (s: int, b: byte) => if b == 97 then 1 else 2,
            (s: int, b: byte) => [], (s: int) => [], s => s == 1, s => s == 2)
  }

  /** The same two letters, in one piece and in two: the second is not read. */
  lemma BufferDisagrees()
    ensures Whole(Letters(), [97, 97]).p == 2
    ensures Pieces(Letters(), Start(Letters()), [], [[97], [97]]).p == 1
  {
    var m := Letters();
    var c1 := Conf(1, None, 1, []);
    assert Step(m, Start(m), [97, 97]) == c1;
    assert Step(m, c1, [97, 97]) == Conf(1, None, 2, []);
    assert [] + [[97 as byte], [97]][0] == [97];
    assert Step(m, Start(m), [97]) == c1;
    assert Scan(m, Start(m), [97], 1) == c1;
  }

  // ----- the object -----

  class RagelParser {
    const m: Machine
    var cs: int
    var text: seq<byte>          // the memory that p, pe, eof and mark point into
    var p: nat
    var pe: nat
    var eof: Option<nat>
    var mark: Option<nat>
    var fullString: seq<byte>
    var tokens: seq<seq<byte>>
    ghost var fed: seq<byte>     // everything handed over since init()
    ghost var done: nat          // how much of it the machine has consumed

    /** Between calls the mark is the start of fullString, which holds exactly the input from the
        mark to the end of what has been fed. */
    ghost predicate Valid()
      reads this
    {
      && (mark == None ==> fullString == [])
      && (mark.Some? ==> mark.value == 0)
      && |fullString| <= |fed| && fed[|fed| - |fullString|..] == fullString
      && Inside(View(), fed)
    }

    /** The parse as one over the flat input. */
    ghost function View(): Conf
      reads this
    {
      var marked := if |fullString| <= |fed| then |fed| - |fullString| else 0;
      Conf(cs, if mark.Some? then Some(marked) else None, done, tokens)
    }

    function Here(): Conf
      reads this
    {
      Conf(cs, mark, p, tokens)
    }

    constructor (machine: Machine)
      ensures m == machine && Valid() && fed == [] && View() == Start(machine)
    {
      m := machine;
      cs, text, p, pe, eof, mark, fullString, tokens := machine.start, [], 0, 0, None, None, [], [];
      fed, done := [], 0;
      new;
      assert View() == Conf(m.start, None, 0, []);
    }

    /** init(), with what the generated machine adds to it. */
    method Init()
      modifies this
      ensures Valid() && fed == [] && View() == Start(m) && Here().(p := 0) == Start(m)
    {
      cs, tokens := m.start, [];
      mark, fullString := None, [];
      fed, done := [], 0;
    }

    /** The actions attached to one transition. */
    method Act(ops: seq<Op>)
      requires Inside(Here(), text)
      modifies this`mark, this`tokens
      ensures Here() == Do(old(Here()), ops, text)
    {
      var i := 0;
      while i < |ops|
        invariant 0 <= i <= |ops| && Inside(Here(), text)
        invariant Do(Here(), ops[i..], text) == Do(old(Here()), ops, text)
      {
        assert ops[i..][1..] == ops[i + 1..];
        match ops[i] {
          case Mark => mark := Some(p);
          case Unmark => mark := None;
          case Emit => tokens := tokens + [if mark.Some? then text[mark.value..p] else []];
        }
        i := i + 1;
      }
    }

    method Exec()
      requires Inside(Here(), text) && p <= pe == |text| && (eof.Some? ==> eof.value == pe) && !m.error(cs)
      modifies this`cs, this`p, this`mark, this`tokens
      ensures Here() == Ran(m, old(Here()), text, eof.Some?)
    {
      while p < pe && !m.error(cs)
        invariant Inside(Here(), text) && p <= pe
        invariant Scan(m, Here(), text, pe) == Scan(m, old(Here()), text, pe)
        decreases pe - p, !m.error(cs)
      {
        var b := text[p];
        Act(m.ops(cs, b));
        cs := m.next(cs, b);
        if !m.error(cs) { p := p + 1; }
      }
      if eof == Some(p) && !m.error(cs) { Act(m.eofOps(cs)); }
    }

    /** Where the new characters are put: behind what is kept since the mark, or nowhere. */
    method Attach(buffer: seq<byte>, isEof: bool, atNull: bool) returns (ghost front: seq<byte>)
      requires Valid() && done == |fed| && (atNull ==> buffer == [])
      modifies this`text, this`p, this`pe, this`eof, this`fullString, this`fed
      ensures fed == old(fed) + buffer == front + text && (fullString == text || fullString == [])
      ensures |front| + p == done && p == |text| - |buffer| && p <= pe == |text| &&
              eof == if isEof || TakenForEof(old(View()), atNull) then Some(pe) else None
      ensures Inside(Here(), text) && Shift(Here(), |front|) == old(View())
    {
      front := if mark.Some? then fed[..|fed| - |fullString|] else fed;
      if mark.Some? {
        fullString := fullString + buffer;
        text := fullString;
        pe := |text|;
        p := pe - |buffer|;
      } else {
        text := buffer;
        p, pe := 0, |buffer|;
      }
      eof := if isEof || (atNull && mark == None) then Some(pe) else None;   // a null eof is where p is
      fed := fed + buffer;
    }

    /** Keep what follows the mark, whichever memory it is in, and point the mark at it. */
    method Keep(ghost front: seq<byte>)
      requires fed == front + text && pe == |text| && (fullString == text || fullString == [])
      requires Inside(Here(), text) && done == |front| + p
      modifies this`mark, this`fullString
      ensures Valid() && View() == Shift(old(Here()), |front|)
    {
      if mark == None {
        fullString := [];
      } else if fullString == [] {
        fullString := text[mark.value..pe];
        mark := Some(0);
      } else if mark.value != 0 {
        fullString := fullString[mark.value..];
        mark := Some(0);
      }
    }

    /** run(buffer, length, isEof) */
    method Run(buffer: seq<byte>, isEof: bool, atNull: bool) returns (consumed: nat)
      requires Valid() && !m.error(cs) && done == |fed| && (atNull ==> buffer == [])
      modifies this
      ensures Valid() && fed == old(fed) + buffer
      ensures View() == Ran(m, old(View()), fed, isEof || TakenForEof(old(View()), atNull))
      ensures consumed == done - old(done)
    {
      ghost var front := Attach(buffer, isEof, atNull);
      ghost var c0 := Here();
      Exec();
      Lifted(m, c0, front, text, eof.Some?, Here(), old(View()), fed);
      consumed := p - (pe - |buffer|);
      done := done + consumed;
      Keep(front);
    }

    /** run(buffer, length): one text, parsed from the start with its end in sight. */
    method RunWhole(buffer: seq<byte>) returns (consumed: nat)
      requires !m.error(m.start)
      modifies this
      ensures Here() == Whole(m, buffer) && consumed == Whole(m, buffer).p
    {
      Init();
      text := buffer;
      p, pe := 0, |buffer|;
      eof := Some(pe);
      Exec();
      consumed := |buffer| - (pe - p);
    }

    /** run(const Buffer &) */
    method RunBuffer(chunks: seq<seq<byte>>) returns (total: nat)
      requires Wellformed(m)
      modifies this
      ensures View() == Pieces(m, Start(m), [], chunks) && total == View().p
    {
      Init();
      total := 0;
      var i := 0;
      while i < |chunks|
        invariant 0 <= i <= |chunks| && Valid() && !m.error(cs) && done == |fed| == total
        invariant Pieces(m, View(), fed, chunks[i..]) == Pieces(m, Start(m), [], chunks)
      {
        assert chunks[i..][0] == chunks[i] && chunks[i..][1..] == chunks[i + 1..];
        var consumed := Run(chunks[i], false, false);
        total := total + consumed;
        if consumed < |chunks[i]| {
          assert m.error(cs);
          return;
        }
        if m.final(cs) { break; }
        if m.error(cs) { return; }
        i := i + 1;
      }
      ghost var here := fed;
      var _ := Run([], true, true);
      assert fed == here;
    }
  }

  /** What the machine did to its memory, read as a step over the flat input. */
  lemma Lifted(m: Machine, c0: Conf, front: seq<byte>, text: seq<byte>, isEof: bool, c: Conf, v: Conf, fed: seq<byte>)
    requires Inside(c0, text) && v == Shift(c0, |front|) && fed == front + text
    requires c == Ran(m, c0, text, isEof)
    ensures Inside(v, fed) && Shift(c, |front|) == Ran(m, v, fed, isEof)
  {
    ScanShifted(m, c0, front, text);
    var r := Scan(m, c0, text, |text|);
    DoShifted(r, m.eofOps(r.cs), front, text);
  }
}
