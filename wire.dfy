/**
 * The byte framing of a channel (`MulticastInterface`): a header is its
 * fields joined by single spaces and closed by CR LF CR LF, optionally
 * followed by a raw body; a received datagram is truncated to the
 * receive buffer, split at the first CR LF CR LF, and its header part is
 * split on runs of spaces. Header fields are ASCII octets.
 */
module Wire {
  import opened Common

  const CR: Byte := 0x0D
  const LF: Byte := 0x0A
  const Space: Byte := 0x20

  /** The 4-byte header terminator CR LF CR LF. */
  const Terminator: seq<Byte> := [CR, LF, CR, LF]

  /** Size of the receive buffer: a 64000-byte chunk plus 64 bytes of header. */
  const ReceiveBufferSize: nat := 64064

  /** A header and, when a terminator was found, the bytes after it. */
  datatype Decoded = Decoded(header: seq<seq<Byte>>, body: Option<seq<Byte>>)

  // ---------------------------------------------------------------- sending

  /** The lengths of the fields, added up. */
  function FieldsLength(fields: seq<seq<Byte>>): nat
  {
    if |fields| == 0 then 0 else |fields[0]| + FieldsLength(fields[1..])
  }

  /** `String.join(" ", fields)`: the fields and one separator between each two. */
  function Join(fields: seq<seq<Byte>>): (r: seq<Byte>)
    ensures |fields| >= 1 ==> |r| == FieldsLength(fields) + |fields| - 1
    ensures |fields| >= 1 ==> r[..|fields[0]|] == fields[0]
  {
    if |fields| == 0 then []
    else if |fields| == 1 then fields[0]
    else fields[0] + [Space] + Join(fields[1..])
  }

  /** The bytes `sendMessage` puts before any body: the joined fields and the terminator. */
  function HeaderBytes(header: seq<seq<Byte>>): (r: seq<Byte>)
    ensures |r| == |Join(header)| + 4
    ensures r[|r| - 4..] == Terminator
  {
    Join(header) + Terminator
  }

  /**
   * The body overload of `sendMessage`: a fresh array of the header's
   * length plus the body's, filled by two array copies.
   */
  method FrameWithBody(header: seq<seq<Byte>>, body: array<Byte>) returns (msg: array<Byte>)
    ensures msg.Length == |HeaderBytes(header)| + body.Length
    ensures msg[..] == HeaderBytes(header) + body[..]
  {
    var headerMsg := HeaderBytes(header);
    msg := new Byte[|headerMsg| + body.Length];
    for i := 0 to |headerMsg|
      invariant msg[..i] == headerMsg[..i]
    {
      msg[i] := headerMsg[i];
    }
    for i := 0 to body.Length
      invariant msg[..|headerMsg| + i] == headerMsg + body[..i]
    {
      msg[|headerMsg| + i] := body[i];
    }
  }

  // -------------------------------------------------------------- receiving

  predicate TerminatorAt(m: seq<Byte>, k: int) {
    0 <= k && k + 4 <= |m| && m[k] == CR && m[k + 1] == LF && m[k + 2] == CR && m[k + 3] == LF
  }

  /** The first position at or after `from` where CR LF CR LF starts. */
  function FindTerminator(m: seq<Byte>, from: nat): (r: Option<nat>)
    requires from <= |m|
    ensures r.Some? ==> from <= r.value && TerminatorAt(m, r.value)
    ensures r.Some? ==> forall k :: from <= k < r.value ==> !TerminatorAt(m, k)
    ensures r.None? ==> forall k :: from <= k ==> !TerminatorAt(m, k)
    decreases |m| - from
  {
    if from + 4 > |m| then None
    else if TerminatorAt(m, from) then Some(from)
    else FindTerminator(m, from + 1)
  }

  /** The first space at or after `from`. */
  function IndexOfSpace(s: seq<Byte>, from: nat): (r: Option<nat>)
    requires from <= |s|
    ensures r.Some? ==> from <= r.value < |s| && s[r.value] == Space
    ensures r.Some? ==> forall k :: from <= k < r.value ==> s[k] != Space
    ensures r.None? ==> forall k :: from <= k < |s| ==> s[k] != Space
    decreases |s| - from
  {
    if from == |s| then None
    else if s[from] == Space then Some(from)
    else IndexOfSpace(s, from + 1)
  }

  /** The end of the run of spaces that starts at `i`. */
  function SkipSpaces(s: seq<Byte>, i: nat): (j: nat)
    requires i <= |s|
    ensures i <= j <= |s|
    ensures forall k :: i <= k < j ==> s[k] == Space
    ensures j == |s| || s[j] != Space
    decreases |s| - i
  {
    if i < |s| && s[i] == Space then SkipSpaces(s, i + 1) else i
  }

  /**
   * The pieces between runs of spaces, keeping a leading and a trailing
   * empty piece: what the regular expression " +" separates.
   */
  function SpaceRuns(s: seq<Byte>): (pieces: seq<seq<Byte>>)
    ensures |pieces| >= 1
    ensures forall i :: 0 <= i < |pieces| ==> Space !in pieces[i]
    ensures forall i :: 0 < i < |pieces| - 1 ==> |pieces[i]| > 0
    ensures |s| > 0 && s[0] != Space ==> |pieces[0]| > 0
    decreases |s|
  {
    match IndexOfSpace(s, 0)
    case None => [s]
    case Some(i) =>
      var rest := SpaceRuns(s[SkipSpaces(s, i)..]);
      [s[..i]] + rest
  }

  /** The pieces with every trailing empty piece removed. */
  function StripTrailingEmpty(pieces: seq<seq<Byte>>): (r: seq<seq<Byte>>)
    ensures |r| <= |pieces| && r == pieces[..|r|]
    ensures |r| == 0 || |r[|r| - 1]| > 0
    ensures forall i :: |r| <= i < |pieces| ==> pieces[i] == []
  {
    if |pieces| > 0 && pieces[|pieces| - 1] == [] then StripTrailingEmpty(pieces[..|pieces| - 1])
    else pieces
  }

  /**
   * `s.split(" +")`: the input itself when it holds no space; otherwise
   * the pieces between runs of spaces, a leading empty piece kept and
   * trailing empty pieces dropped.
   */
  function SplitSpaces(s: seq<Byte>): (fields: seq<seq<Byte>>)
    ensures forall i :: 0 <= i < |fields| ==> Space !in fields[i]
    ensures forall i :: 0 < i < |fields| ==> |fields[i]| > 0
    ensures (forall k :: 0 <= k < |s| ==> s[k] != Space) ==> fields == [s]
  {
    if IndexOfSpace(s, 0).None? then [s] else StripTrailingEmpty(SpaceRuns(s))
  }

  /**
   * `msg.split(CR LF CR LF, 2)` followed by the header split: the body is
   * what follows the FIRST terminator, or absent when there is none.
   */
  function Decode(msg: seq<Byte>): (d: Decoded)
    ensures d.body.None? <==> (forall k :: 0 <= k < |msg| ==> !TerminatorAt(msg, k))
    ensures d.body.None? ==> d.header == SplitSpaces(msg)
    ensures d.body.Some? ==>
      var i := |msg| - |d.body.value| - 4;
      && 0 <= i
      && TerminatorAt(msg, i)
      && (forall k :: 0 <= k < i ==> !TerminatorAt(msg, k))
      && msg[i + 4..] == d.body.value
      && d.header == SplitSpaces(msg[..i])
  {
    match FindTerminator(msg, 0)
    case None => Decoded(SplitSpaces(msg), None)
    case Some(i) => Decoded(SplitSpaces(msg[..i]), Some(msg[i + 4..]))
  }

  /**
   * `receiveMessage`: at most `ReceiveBufferSize` bytes of the datagram are
   * kept. When the socket read fails the packet keeps the untouched
   * buffer, a full buffer of zero bytes, and that is what gets decoded.
   */
  function ReceiveMessage(datagram: Result<seq<Byte>>): (d: Decoded)
    ensures datagram.Ok? && |datagram.value| <= ReceiveBufferSize ==> d == Decode(datagram.value)
    ensures datagram.Ok? && |datagram.value| > ReceiveBufferSize ==> d == Decode(datagram.value[..ReceiveBufferSize])
    ensures d.body.Some? ==> |d.body.value| <= ReceiveBufferSize - 4
  {
    match datagram
    case Err(_) => Decode(seq(ReceiveBufferSize, _ => 0 as Byte))
    case Ok(bytes) => Decode(if |bytes| <= ReceiveBufferSize then bytes else bytes[..ReceiveBufferSize])
  }

  // ------------------------------------------------------------- properties

  /** A field the framing carries unchanged: non-empty, with no space and no CR. */
  predicate PlainField(f: seq<Byte>) {
    |f| > 0 && Space !in f && CR !in f
  }

  lemma {:induction false} JoinContents(fields: seq<seq<Byte>>, k: nat)
    requires k < |Join(fields)|
    ensures Join(fields)[k] == Space || exists i :: 0 <= i < |fields| && Join(fields)[k] in fields[i]
  {
    if |fields| > 1 {
      var f := fields[0];
      if k < |f| {
        assert Join(fields)[k] == f[k];
      } else if k > |f| {
        var rest := fields[1..];
        assert Join(fields)[k] == Join(rest)[k - |f| - 1];
        JoinContents(rest, k - |f| - 1);
        if Join(fields)[k] != Space {
          var i :| 0 <= i < |rest| && Join(fields)[k] in rest[i];
          assert rest[i] == fields[i + 1];
        }
      }
    } else {
      assert Join(fields)[k] in fields[0];
    }
  }

  /** Joining fields that carry no CR yields bytes with no CR. */
  lemma JoinHasNoCR(fields: seq<seq<Byte>>)
    requires forall i :: 0 <= i < |fields| ==> CR !in fields[i]
    ensures forall k :: 0 <= k < |Join(fields)| ==> Join(fields)[k] != CR
  {
    forall k | 0 <= k < |Join(fields)|
      ensures Join(fields)[k] != CR
    {
      JoinContents(fields, k);
    }
  }

  /** `n` spaces. */
  function Spaces(n: nat): seq<Byte> {
    seq(n, _ => Space)
  }

  /** The fields separated by runs of spaces, run `i` being `gaps[i]` spaces long. */
  function JoinRuns(fields: seq<seq<Byte>>, gaps: seq<nat>): seq<Byte>
    requires |fields| >= 1 && |gaps| == |fields| - 1
  {
    if |fields| == 1 then fields[0]
    else fields[0] + Spaces(gaps[0]) + JoinRuns(fields[1..], gaps[1..])
  }

  /** The first space of `s` is at `p` when `s[p]` is a space and none comes before it. */
  lemma FirstSpace(s: seq<Byte>, p: nat)
    requires p < |s| && s[p] == Space && forall k :: 0 <= k < p ==> s[k] != Space
    ensures IndexOfSpace(s, 0) == Some(p)
  {
  }

  /** The run of spaces starting at `i` ends at `j` when `s[i..j]` is spaces and `s[j]` is not. */
  lemma RunEnd(s: seq<Byte>, i: nat, j: nat)
    requires i <= j < |s| && s[j] != Space && forall k :: i <= k < j ==> s[k] == Space
    ensures SkipSpaces(s, i) == j
  {
  }

  /**
   * In a field, a run of `g >= 1` spaces and a rest that does not start
   * with a space, the first space ends the field and the run ends where
   * the rest begins.
   */
  lemma SplitAtRun(s: seq<Byte>, f: seq<Byte>, g: nat, tail: seq<Byte>)
    requires Space !in f && g >= 1 && |tail| > 0 && tail[0] != Space
    requires s == f + Spaces(g) + tail
    ensures IndexOfSpace(s, 0) == Some(|f|)
    ensures SkipSpaces(s, |f|) == |f| + g
    ensures s[..|f|] == f && s[|f| + g..] == tail
  {
    assert forall k :: 0 <= k < |f| ==> s[k] == f[k] && s[k] != Space;
    assert forall k :: |f| <= k < |f| + g ==> s[k] == Space;
    assert s[|f| + g] == tail[0];
    FirstSpace(s, |f|);
    RunEnd(s, |f|, |f| + g);
    assert s[..|f|] == f;
    assert s[|f| + g..] == tail;
  }

  /** Splitting fields separated by runs of one or more spaces gives the fields back. */
  lemma {:induction false} SpaceRunsOfJoinRuns(fields: seq<seq<Byte>>, gaps: seq<nat>)
    requires |fields| >= 1 && |gaps| == |fields| - 1
    requires forall i :: 0 <= i < |fields| ==> |fields[i]| > 0 && Space !in fields[i]
    requires forall i :: 0 <= i < |gaps| ==> gaps[i] >= 1
    ensures SpaceRuns(JoinRuns(fields, gaps)) == fields
  {
    if |fields| == 1 {
      assert IndexOfSpace(fields[0], 0).None?;
    } else {
      var tail := JoinRuns(fields[1..], gaps[1..]);
      FirstOfJoinRuns(fields[1..], gaps[1..]);
      SplitAtRun(JoinRuns(fields, gaps), fields[0], gaps[0], tail);
      SpaceRunsOfJoinRuns(fields[1..], gaps[1..]);
      assert fields == [fields[0]] + fields[1..];
    }
  }

  /** Fields separated by runs of spaces start with the first field's first byte. */
  lemma {:induction false} FirstOfJoinRuns(fields: seq<seq<Byte>>, gaps: seq<nat>)
    requires |fields| >= 1 && |gaps| == |fields| - 1 && |fields[0]| > 0
    ensures |JoinRuns(fields, gaps)| > 0 && JoinRuns(fields, gaps)[0] == fields[0][0]
  {
  }

  /** `split(" +")` recovers fields separated by runs of one or more spaces. */
  lemma SplitSpacesOfJoinRuns(fields: seq<seq<Byte>>, gaps: seq<nat>)
    requires |fields| >= 1 && |gaps| == |fields| - 1
    requires forall i :: 0 <= i < |fields| ==> |fields[i]| > 0 && Space !in fields[i]
    requires forall i :: 0 <= i < |gaps| ==> gaps[i] >= 1
    ensures SplitSpaces(JoinRuns(fields, gaps)) == fields
  {
    SpaceRunsOfJoinRuns(fields, gaps);
  }

  /** A run of spaces reaching the end of `s` is skipped to the end. */
  lemma RunToEnd(s: seq<Byte>, i: nat)
    requires i <= |s| && forall k :: i <= k < |s| ==> s[k] == Space
    ensures SkipSpaces(s, i) == |s|
  {
  }

  /** A run of `g >= 1` spaces in front of the input yields a leading empty piece. */
  lemma SpaceRunsLeading(s: seq<Byte>, g: nat, t: seq<Byte>)
    requires g >= 1 && |t| > 0 && t[0] != Space
    requires s == Spaces(g) + t
    ensures SpaceRuns(s) == [[]] + SpaceRuns(t)
  {
    assert forall k :: 0 <= k < g ==> s[k] == Space;
    assert s[g] == t[0];
    FirstSpace(s, 0);
    RunEnd(s, 0, g);
    assert s[..0] == [];
    assert s[g..] == t;
  }

  /** The pieces of a field, a run of spaces and a rest that starts with no space: the field, then the pieces of the rest. */
  lemma SpaceRunsStep(s: seq<Byte>, f: seq<Byte>, g: nat, tail: seq<Byte>)
    requires Space !in f && g >= 1 && |tail| > 0 && tail[0] != Space
    requires s == f + Spaces(g) + tail
    ensures SpaceRuns(s) == [f] + SpaceRuns(tail)
  {
    SplitAtRun(s, f, g, tail);
  }

  /** Fields joined by runs, then spaces: the first field, its run, and the rest. */
  lemma UnfoldJoinRunsThenSpaces(s: seq<Byte>, fields: seq<seq<Byte>>, gaps: seq<nat>, h: nat, rest: seq<Byte>)
    requires |fields| >= 2 && |gaps| == |fields| - 1
    requires s == JoinRuns(fields, gaps) + Spaces(h)
    requires rest == JoinRuns(fields[1..], gaps[1..]) + Spaces(h)
    ensures s == fields[0] + Spaces(gaps[0]) + rest
  {
  }

  /** A field followed by `h >= 1` spaces splits into the field and a trailing empty piece. */
  lemma FieldThenSpaces(s: seq<Byte>, f: seq<Byte>, h: nat)
    requires Space !in f && h >= 1
    requires s == f + Spaces(h)
    ensures SpaceRuns(s) == [f, []]
  {
    assert forall k :: 0 <= k < |f| ==> s[k] == f[k] && s[k] != Space;
    assert forall k :: |f| <= k < |s| ==> s[k] == Space;
    FirstSpace(s, |f|);
    RunToEnd(s, |f|);
    assert s[..|f|] == f;
    assert s[|s|..] == [];
    assert IndexOfSpace([], 0).None?;
  }

  /** Fields separated by runs of spaces and followed by `h >= 1` spaces: the fields and a trailing empty piece. */
  lemma {:induction false} SpaceRunsOfJoinRunsThenSpaces(s: seq<Byte>, fields: seq<seq<Byte>>, gaps: seq<nat>, h: nat)
    requires |fields| >= 1 && |gaps| == |fields| - 1
    requires forall i :: 0 <= i < |fields| ==> |fields[i]| > 0 && Space !in fields[i]
    requires forall i :: 0 <= i < |gaps| ==> gaps[i] >= 1
    requires h >= 1 && s == JoinRuns(fields, gaps) + Spaces(h)
    ensures SpaceRuns(s) == fields + [[]]
    decreases |fields|
  {
    if |fields| == 1 {
      FieldThenSpaces(s, fields[0], h);
    } else {
      var rest := JoinRuns(fields[1..], gaps[1..]) + Spaces(h);
      FirstOfJoinRuns(fields[1..], gaps[1..]);
      UnfoldJoinRunsThenSpaces(s, fields, gaps, h, rest);
      SpaceRunsStep(s, fields[0], gaps[0], rest);
      SpaceRunsOfJoinRunsThenSpaces(rest, fields[1..], gaps[1..], h);
      assert fields + [[]] == [fields[0]] + (fields[1..] + [[]]);
    }
  }

  /** `split` drops one trailing empty piece after a non-empty last piece, and nothing else. */
  lemma StripOneTrailingEmpty(pieces: seq<seq<Byte>>)
    requires |pieces| > 0 && |pieces[|pieces| - 1]| > 0
    ensures StripTrailingEmpty(pieces) == pieces
    ensures StripTrailingEmpty(pieces + [[]]) == pieces
  {
    assert (pieces + [[]])[..|pieces|] == pieces;
  }

  /** On any non-empty input, `split(" +")` is the pieces between runs of spaces with the trailing empty ones stripped. */
  lemma SplitSpacesOfSpaced(s: seq<Byte>)
    requires |s| > 0
    ensures SplitSpaces(s) == StripTrailingEmpty(SpaceRuns(s))
  {
    if IndexOfSpace(s, 0).None? {
      assert SpaceRuns(s) == [s];
    }
  }

  /** The pieces between the runs of spaces of fields joined by runs, with `h` spaces behind. */
  lemma SpaceRunsOfTrailing(t: seq<Byte>, fields: seq<seq<Byte>>, gaps: seq<nat>, h: nat)
    requires |fields| >= 1 && |gaps| == |fields| - 1
    requires forall i :: 0 <= i < |fields| ==> |fields[i]| > 0 && Space !in fields[i]
    requires forall i :: 0 <= i < |gaps| ==> gaps[i] >= 1
    requires t == JoinRuns(fields, gaps) + Spaces(h)
    ensures |t| > 0 && t[0] != Space
    ensures StripTrailingEmpty(SpaceRuns(t)) == fields
  {
    FirstOfJoinRuns(fields, gaps);
    StripOneTrailingEmpty(fields);
    if h >= 1 {
      SpaceRunsOfJoinRunsThenSpaces(t, fields, gaps, h);
    } else {
      assert t == JoinRuns(fields, gaps);
      SpaceRunsOfJoinRuns(fields, gaps);
    }
  }

  /**
   * `split(" +")` on fields separated by runs of spaces, with `g` spaces in
   * front and `h` behind: a leading empty field when `g >= 1`, and the
   * trailing spaces leave no field (`" A B ".split(" +")` is `["", "A", "B"]`).
   */
  lemma SplitSpacesOfPaddedJoinRuns(s: seq<Byte>, fields: seq<seq<Byte>>, gaps: seq<nat>, g: nat, h: nat)
    requires |fields| >= 1 && |gaps| == |fields| - 1
    requires forall i :: 0 <= i < |fields| ==> |fields[i]| > 0 && Space !in fields[i]
    requires forall i :: 0 <= i < |gaps| ==> gaps[i] >= 1
    requires s == Spaces(g) + JoinRuns(fields, gaps) + Spaces(h)
    ensures SplitSpaces(s) == (if g >= 1 then [[]] + fields else fields)
  {
    var t := JoinRuns(fields, gaps) + Spaces(h);
    assert s == Spaces(g) + t;
    SpaceRunsOfTrailing(t, fields, gaps, h);
    SplitSpacesOfSpaced(s);
    if g >= 1 {
      SpaceRunsLeading(s, g, t);
      LeadingEmptySurvives(SpaceRuns(t), fields);
    } else {
      assert s == t;
    }
  }

  /** A leading empty piece is kept when the pieces after it strip to non-empty fields. */
  lemma LeadingEmptySurvives(pieces: seq<seq<Byte>>, fields: seq<seq<Byte>>)
    requires |fields| >= 1 && StripTrailingEmpty(pieces) == fields
    ensures StripTrailingEmpty([[]] + pieces) == [[]] + fields
    decreases |pieces|
  {
    if |pieces| > 0 && pieces[|pieces| - 1] == [] {
      assert ([[]] + pieces)[..|pieces|] == [[]] + pieces[..|pieces| - 1];
      LeadingEmptySurvives(pieces[..|pieces| - 1], fields);
    }
  }

  /** `String.join(" ", ...)` separates the fields by runs of exactly one space. */
  lemma {:induction false} JoinIsJoinRuns(fields: seq<seq<Byte>>)
    requires |fields| >= 1
    ensures Join(fields) == JoinRuns(fields, seq(|fields| - 1, _ => 1))
  {
    if |fields| > 1 {
      JoinIsJoinRuns(fields[1..]);
      assert seq(|fields| - 1, _ => 1)[1..] == seq(|fields| - 2, _ => 1);
      assert Spaces(1) == [Space];
    }
  }

  /** `split(" +")` recovers the fields that `String.join(" ", ...)` joined. */
  lemma SplitSpacesOfJoin(fields: seq<seq<Byte>>)
    requires |fields| >= 1
    requires forall i :: 0 <= i < |fields| ==> |fields[i]| > 0 && Space !in fields[i]
    ensures SplitSpaces(Join(fields)) == fields
  {
    JoinIsJoinRuns(fields);
    SplitSpacesOfJoinRuns(fields, seq(|fields| - 1, _ => 1));
  }

  /**
   * Round trip: a header of plain fields followed by any body, even one
   * that itself contains CR LF CR LF, decodes to that header and body.
   */
  lemma RoundTrip(header: seq<seq<Byte>>, body: seq<Byte>)
    requires |header| >= 1
    requires forall i :: 0 <= i < |header| ==> PlainField(header[i])
    ensures Decode(HeaderBytes(header) + body) == Decoded(header, Some(body))
  {
    var j := Join(header);
    var m := HeaderBytes(header) + body;
    JoinHasNoCR(header);
    assert m == j + Terminator + body;
    assert TerminatorAt(m, |j|);
    forall k | 0 <= k < |j|
      ensures !TerminatorAt(m, k)
    {
      assert m[k] == j[k];
    }
    assert FindTerminator(m, 0) == Some(|j|);
    assert m[..|j|] == j;
    assert m[|j| + 4..] == body;
    SplitSpacesOfJoin(header);
  }

  /**
   * What a peer receives from a header-only send that fits the buffer:
   * the same fields, and an EMPTY body rather than an absent one, since
   * the terminator is always sent.
   */
  lemma HeaderOnlyRoundTrip(header: seq<seq<Byte>>)
    requires |header| >= 1
    requires forall i :: 0 <= i < |header| ==> PlainField(header[i])
    requires |HeaderBytes(header)| <= ReceiveBufferSize
    ensures ReceiveMessage(Ok(HeaderBytes(header))) == Decoded(header, Some([]))
  {
    RoundTrip(header, []);
    assert HeaderBytes(header) + [] == HeaderBytes(header);
  }

  /** A message with a body that fits the buffer is received as sent. */
  lemma ReceiveRoundTrip(header: seq<seq<Byte>>, body: seq<Byte>)
    requires |header| >= 1
    requires forall i :: 0 <= i < |header| ==> PlainField(header[i])
    requires |HeaderBytes(header)| + |body| <= ReceiveBufferSize
    ensures ReceiveMessage(Ok(HeaderBytes(header) + body)) == Decoded(header, Some(body))
  {
    RoundTrip(header, body);
  }

  /** A failed socket read is decoded as one all-zero header field with no body. */
  lemma FailedReceive(e: Exception)
    ensures ReceiveMessage(Err(e)) == Decoded([seq(ReceiveBufferSize, _ => 0 as Byte)], None)
  {
    var zeros := seq(ReceiveBufferSize, _ => 0 as Byte);
    assert forall k :: 0 <= k < |zeros| ==> zeros[k] != CR && zeros[k] != Space;
    assert forall k :: 0 <= k < |zeros| ==> !TerminatorAt(zeros, k);
  }
}
