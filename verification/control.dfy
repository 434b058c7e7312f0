/**
  Circuit rotation over Tor's control protocol: `TorInstance.Rotate` and the
  `Manager.AutoRotate` ticker loop.

  The directive is two CRLF-terminated lines, `AUTHENTICATE ""` with an empty
  password (section 3.5 of the Tor control protocol specification) and
  `SIGNAL NEWNYM` (section 3.7). No reply is read. Whether the connection to
  the control port succeeds is an input: the set of control ports that accept
  connections at that moment.
 */
module Control {
  import opened Tor

  const CRLF: string := "\r\n"
  const AuthenticateLine: string := "AUTHENTICATE \"\""
  const NewnymLine: string := "SIGNAL NEWNYM"
  /** The bytes `Rotate` writes to the control connection. */
  const NewnymDirective: string := "AUTHENTICATE \"\"\r\nSIGNAL NEWNYM\r\n"

  /** A protocol line body: no carriage return and no line feed. */
  predicate IsLineBody(l: string) {
    forall i :: 0 <= i < |l| ==> l[i] != '\r' && l[i] != '\n'
  }

  /** Each line followed by CRLF. */
  function JoinLines(ls: seq<string>): string
    decreases |ls|
  {
    if |ls| == 0 then "" else ls[0] + CRLF + JoinLines(ls[1..])
  }

  /** Index of the first carriage return in `s`, or `|s|` if there is none. */
  function IndexOfCR(s: string): (k: nat)
    ensures k <= |s|
    ensures forall i :: 0 <= i < k ==> s[i] != '\r'
    ensures k < |s| ==> s[k] == '\r'
    decreases |s|
  {
    if |s| == 0 then 0 else if s[0] == '\r' then 0 else 1 + IndexOfCR(s[1..])
  }

  /**
    The first CRLF-terminated line of `s` and the text after its CRLF; `None`
    when `s` has no CR followed by LF or its first line holds a bare line feed.
   */
  function SplitFirst(s: string): (r: Option<(string, string)>)
    ensures r.Some? ==> IsLineBody(r.value.0) && s == r.value.0 + CRLF + r.value.1
  {
    var k := IndexOfCR(s);
    if k + 1 < |s| && s[k + 1] == '\n' && IsLineBody(s[..k]) then
      assert s == s[..k] + CRLF + s[k + 2..];
      Some((s[..k], s[k + 2..]))
    else None
  }

  /**
    Splits a message into CRLF-terminated lines; `None` when some text is not
    terminated by CRLF or a bare line feed occurs inside a line.
   */
  function SplitLines(s: string): (r: Option<seq<string>>)
    ensures r.Some? ==> forall i :: 0 <= i < |r.value| ==> IsLineBody(r.value[i])
    decreases |s|
  {
    if |s| == 0 then Some([])
    else
      match SplitFirst(s)
      case None => None
      case Some((l, rest)) =>
        match SplitLines(rest)
        case Some(ls) => Some([l] + ls)
        case None => None
  }

  datatype Option<T> = None | Some(value: T)

  lemma IndexOfCRAfterBody(l: string, t: string)
    requires IsLineBody(l) && |t| > 0 && t[0] == '\r'
    ensures IndexOfCR(l + t) == |l|
  {
    var s := l + t;
    assert s[|l|] == '\r';
    assert forall i :: 0 <= i < |l| ==> s[i] == l[i];
  }

  /** Splitting the join of well-formed lines gives the lines back. */
  lemma {:induction false} SplitJoin(ls: seq<string>)
    requires forall i :: 0 <= i < |ls| ==> IsLineBody(ls[i])
    ensures SplitLines(JoinLines(ls)) == Some(ls)
    decreases |ls|
  {
    if |ls| > 0 {
      var s := JoinLines(ls);
      var l := ls[0];
      var tail := JoinLines(ls[1..]);
      assert s == l + (CRLF + tail);
      IndexOfCRAfterBody(l, CRLF + tail);
      assert s[..|l|] == l;
      assert s[|l| + 2..] == tail;
      assert SplitFirst(s) == Some((l, tail));
      SplitJoin(ls[1..]);
      assert [l] + ls[1..] == ls;
    }
  }

  /** Joining the lines of a message that splits gives the message back. */
  lemma {:induction false} JoinSplit(s: string)
    requires SplitLines(s).Some?
    ensures JoinLines(SplitLines(s).value) == s
    decreases |s|
  {
    if |s| > 0 {
      var (l, rest) := SplitFirst(s).value;
      JoinSplit(rest);
      var ls := SplitLines(s).value;
      assert ls == [l] + SplitLines(rest).value;
      assert ls[1..] == SplitLines(rest).value;
    }
  }

  /** The directive is exactly the two protocol lines, each CRLF-terminated, in this order. */
  lemma DirectiveLines()
    ensures NewnymDirective == JoinLines([AuthenticateLine, NewnymLine])
    ensures SplitLines(NewnymDirective) == Some([AuthenticateLine, NewnymLine])
  {
    var ls := [AuthenticateLine, NewnymLine];
    assert JoinLines(ls[1..][1..]) == "";
    assert JoinLines(ls) == NewnymDirective;
    SplitJoin(ls);
  }

  datatype Rotation = Abandoned | Sent(port: int, message: string)

  /**
    `Rotate`: connect to 127.0.0.1 on the control port; if that fails the
    rotation is dropped, otherwise the directive is written. No descriptor
    field is written on either path, so only the rotation is returned.
   */
  function Rotate(t: TorInstance, listening: set<int>): (r: Rotation)
    ensures r.Sent? <==> t.controlPort in listening
    ensures r.Sent? ==> r.port == t.controlPort && r.message == NewnymDirective
    ensures r.Sent? ==> SplitLines(r.message) == Some([AuthenticateLine, NewnymLine])
  {
    DirectiveLines();
    if t.controlPort in listening then Sent(t.controlPort, NewnymDirective) else Abandoned
  }

  datatype Attempt = Attempt(id: int, rotation: Rotation)

  /** One tick: every instance is rotated once, in list order. */
  function RotateAll(pool: seq<TorInstance>, listening: set<int>): (r: seq<Attempt>)
    ensures |r| == |pool|
    ensures forall i :: 0 <= i < |r| ==> r[i] == Attempt(pool[i].id, Rotate(pool[i], listening))
    decreases |pool|
  {
    if |pool| == 0 then []
    else [Attempt(pool[0].id, Rotate(pool[0], listening))] + RotateAll(pool[1..], listening)
  }

  /** What the `AutoRotate` goroutine observes: a ticker tick, or the context's cancellation. */
  datatype TickEvent = Tick(listening: set<int>) | Cancelled

  /**
    `AutoRotate`: every tick rotates the whole list; cancellation returns from
    the loop at once, with no rotation, and nothing after it is observed.
   */
  function AutoRotate(pool: seq<TorInstance>, events: seq<TickEvent>): (r: seq<Attempt>)
    ensures |r| == |pool| * TicksBeforeCancel(events)
    decreases |events|
  {
    if |events| == 0 then []
    else match events[0]
      case Cancelled => []
      case Tick(listening) =>
        var rest := AutoRotate(pool, events[1..]);
        assert |pool| * TicksBeforeCancel(events) == |pool| + |pool| * TicksBeforeCancel(events[1..]);
        RotateAll(pool, listening) + rest
  }

  /** Number of ticks seen before the first cancellation. */
  function TicksBeforeCancel(events: seq<TickEvent>): nat
    decreases |events|
  {
    if |events| == 0 || events[0].Cancelled? then 0 else 1 + TicksBeforeCancel(events[1..])
  }

  /** Position of the `i`-th instance's attempt in the `k`-th tick, for a list of `n` instances. */
  function Offset(k: nat, n: nat, i: nat): nat {
    k * n + i
  }

  /**
    Each tick before cancellation produces exactly one attempt per instance,
    in list order, and nothing else is produced.
   */
  lemma {:induction false} AutoRotatePerTick(pool: seq<TorInstance>, events: seq<TickEvent>)
    ensures |AutoRotate(pool, events)| == |pool| * TicksBeforeCancel(events)
    ensures forall k, i :: 0 <= k < TicksBeforeCancel(events) && 0 <= i < |pool| ==>
      Offset(k, |pool|, i) < |AutoRotate(pool, events)| &&
      AutoRotate(pool, events)[Offset(k, |pool|, i)].id == pool[i].id
    decreases |events|
  {
    if |events| > 0 && events[0].Tick? {
      var n := |pool|;
      var head: seq<Attempt> := RotateAll(pool, events[0].listening);
      var rest: seq<Attempt> := AutoRotate(pool, events[1..]);
      var t := TicksBeforeCancel(events[1..]);
      AutoRotatePerTick(pool, events[1..]);
      assert AutoRotate(pool, events) == head + rest;
      assert n * (t + 1) == n + n * t;
      forall k, i | 0 <= k < t + 1 && 0 <= i < n
        ensures Offset(k, n, i) < |head + rest| && (head + rest)[Offset(k, n, i)].id == pool[i].id
      {
        if k > 0 {
          assert Offset(k, n, i) == n + Offset(k - 1, n, i);
          assert (head + rest)[Offset(k, n, i)] == rest[Offset(k - 1, n, i)];
        }
      }
    }
  }

  /** Cancellation stops the loop: whatever follows it is never rotated. */
  lemma {:induction false} CancelStops(pool: seq<TorInstance>, before: seq<TickEvent>, after: seq<TickEvent>)
    ensures AutoRotate(pool, before + [Cancelled] + after) == AutoRotate(pool, before)
    decreases |before|
  {
    if |before| == 0 {
      assert (before + [Cancelled] + after)[0] == Cancelled;
    } else {
      assert (before + [Cancelled] + after)[0] == before[0];
      assert (before + [Cancelled] + after)[1..] == before[1..] + [Cancelled] + after;
      CancelStops(pool, before[1..], after);
    }
  }

  /** Every directive the loop sends goes to a listening control port of the pool and is the NEWNYM directive. */
  lemma {:induction false} AutoRotateSendsOnlyDirective(pool: seq<TorInstance>, events: seq<TickEvent>)
    ensures forall a :: a in AutoRotate(pool, events) && a.rotation.Sent? ==>
      a.rotation.message == NewnymDirective && exists t :: t in pool && t.id == a.id && t.controlPort == a.rotation.port
    decreases |events|
  {
    if |events| > 0 && events[0].Tick? {
      AutoRotateSendsOnlyDirective(pool, events[1..]);
      var head := RotateAll(pool, events[0].listening);
      forall a | a in head && a.rotation.Sent?
        ensures a.rotation.message == NewnymDirective && exists t :: t in pool && t.id == a.id && t.controlPort == a.rotation.port
      {
        var i :| 0 <= i < |head| && head[i] == a;
        assert pool[i] in pool;
      }
    }
  }
}
