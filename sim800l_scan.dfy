/** The read-only scans of Src/sim800l.c over the response buffer:
    the response classifier `sim_check_res`, the SMS state classifier
    `sim_get_sms_state` and the character search `find_c`. Each is given as a
    specification function and as the loop the source runs, proved equal. */
module Sim800Scan {
  import opened Bytes
  import opened Sim800Defs

  /** `strncmp(buf + i, pat, |pat|) == 0` for a pattern without NUL bytes,
      counted only when the whole pattern lies inside the buffer. */
  predicate PatternAt(buf: seq<Byte>, i: nat, pat: seq<Byte>)
  {
    i + |pat| <= |buf| && buf[i..i + |pat|] == pat
  }

  /** A position the classifier accepts: a carriage return that starts one of the two result codes. */
  predicate TerminatorAt(buf: seq<Byte>, i: nat)
    requires i < |buf|
  {
    buf[i] == CR && (PatternAt(buf, i, RES_OK) || PatternAt(buf, i, RES_ERR))
  }

  predicate Settled(code: UInt8)
  {
    code == SIM_RES_OK || code == SIM_RES_ERROR
  }

  /** The response buffer once the receive interrupt has stored `reply` from
      index 0 on into a buffer that was cleared to `fill`. */
  function Received(fill: Byte, reply: seq<Byte>): seq<Byte>
    requires |reply| <= MIN_BUFFER
  {
    reply + seq(MIN_BUFFER - |reply|, _ => fill)
  }

  // ---------------------------------------------------------------- sim_check_res

  /** The backward scan of `sim_check_res` from index `i` down to index 1. */
  function ClassifyFrom(buf: seq<Byte>, i: nat): UInt8
    requires i < |buf|
    decreases i
  {
    if i == 0 then SIM_NO_RES
    else if buf[i] == CR && PatternAt(buf, i, RES_OK) then SIM_RES_OK
    else if buf[i] == CR && PatternAt(buf, i, RES_ERR) then SIM_RES_ERROR
    else ClassifyFrom(buf, i - 1)
  }

  /** What `sim_check_res` returns for a buffer. */
  function Classify(buf: seq<Byte>): UInt8
    requires |buf| >= 1
  {
    ClassifyFrom(buf, |buf| - 1)
  }

  /** With no terminator in (lo, hi], the scan from `hi` ends as the scan from `lo`. */
  lemma {:induction false} ClassifySkips(buf: seq<Byte>, lo: nat, hi: nat)
    requires lo <= hi < |buf|
    requires forall j :: lo < j <= hi ==> !TerminatorAt(buf, j)
    ensures ClassifyFrom(buf, hi) == ClassifyFrom(buf, lo)
    decreases hi
  {
    if hi > lo {
      assert !TerminatorAt(buf, hi);
      ClassifySkips(buf, lo, hi - 1);
    }
  }

  /** The classifier answers according to the LAST terminator at an index >= 1:
      OK when the OK pattern starts there, ERROR otherwise. */
  lemma ClassifyFindsLastTerminator(buf: seq<Byte>, i: nat)
    requires 1 <= i < |buf| && TerminatorAt(buf, i)
    requires forall j :: i < j < |buf| ==> !TerminatorAt(buf, j)
    ensures Classify(buf) == if PatternAt(buf, i, RES_OK) then SIM_RES_OK else SIM_RES_ERROR
  {
    ClassifySkips(buf, i, |buf| - 1);
  }

  /** The classifier reports no response exactly when no index >= 1 holds a terminator. */
  lemma {:induction false} ClassifyNoResponse(buf: seq<Byte>)
    requires |buf| >= 1
    ensures Classify(buf) == SIM_NO_RES <==> forall j :: 1 <= j < |buf| ==> !TerminatorAt(buf, j)
  {
    if forall j :: 1 <= j < |buf| ==> !TerminatorAt(buf, j) {
      ClassifySkips(buf, 0, |buf| - 1);
    } else {
      var i :| 1 <= i < |buf| && TerminatorAt(buf, i);
      LastTerminatorExists(buf, i);
      var k :| i <= k < |buf| && TerminatorAt(buf, k) && forall j :: k < j < |buf| ==> !TerminatorAt(buf, j);
      ClassifyFindsLastTerminator(buf, k);
    }
  }

  /** Some terminator at or after `i` is the last one. */
  lemma {:induction false} LastTerminatorExists(buf: seq<Byte>, i: nat)
    requires i < |buf| && TerminatorAt(buf, i)
    ensures exists k :: i <= k < |buf| && TerminatorAt(buf, k) && forall j :: k < j < |buf| ==> !TerminatorAt(buf, j)
    decreases |buf| - i
  {
    if exists j :: i < j < |buf| && TerminatorAt(buf, j) {
      var j :| i < j < |buf| && TerminatorAt(buf, j);
      LastTerminatorExists(buf, j);
    } else {
      assert forall j :: i < j < |buf| ==> !TerminatorAt(buf, j);
    }
  }

  /** Index 0 is never examined: overwriting it does not change the answer. */
  lemma ClassifyIgnoresIndexZero(buf: seq<Byte>, b: Byte)
    requires |buf| >= 1
    ensures Classify(buf[0 := b]) == Classify(buf)
  {
    ClassifyFromIgnoresIndexZero(buf, b, |buf| - 1);
  }

  lemma {:induction false} ClassifyFromIgnoresIndexZero(buf: seq<Byte>, b: Byte, i: nat)
    requires i < |buf|
    ensures ClassifyFrom(buf[0 := b], i) == ClassifyFrom(buf, i)
    decreases i
  {
    if i > 0 {
      SliceAvoidsIndexZero(buf, b, i, |RES_OK|);
      SliceAvoidsIndexZero(buf, b, i, |RES_ERR|);
      ClassifyFromIgnoresIndexZero(buf, b, i - 1);
    }
  }

  lemma SliceAvoidsIndexZero(buf: seq<Byte>, b: Byte, i: nat, n: nat)
    requires 1 <= i
    ensures i + n <= |buf| ==> buf[0 := b][i..i + n] == buf[i..i + n]
  {
    if i + n <= |buf| {
      forall k | i <= k < i + n ensures buf[0 := b][k] == buf[k] { }
    }
  }

  /** A buffer whose last bytes are "\r\nOK\r\n" classifies as OK. */
  lemma ClassifyEndsWithOk(buf: seq<Byte>)
    requires |buf| > LEN_CMD_RES_OK && buf[|buf| - LEN_CMD_RES_OK..] == RES_OK
    ensures Classify(buf) == SIM_RES_OK
  {
    var i := |buf| - LEN_CMD_RES_OK;
    assert buf[i..i + |RES_OK|] == RES_OK;
    ClassifyFindsLastTerminator(buf, i);
  }

  /** A buffer whose last bytes are "\r\nERROR\r\n" classifies as ERROR. */
  lemma ClassifyEndsWithError(buf: seq<Byte>)
    requires |buf| > LEN_CMD_RES_ERR && buf[|buf| - LEN_CMD_RES_ERR..] == RES_ERR
    ensures Classify(buf) == SIM_RES_ERROR
  {
    var i := |buf| - LEN_CMD_RES_ERR;
    assert buf[i..i + |RES_ERR|] == RES_ERR;
    assert buf[i + 2] == 'E' && RES_OK[2] == 'O';
    assert buf[i..i + |RES_OK|][2] == buf[i + 2];
    forall j | i < j < |buf| ensures !TerminatorAt(buf, j) {
      assert buf[j] == RES_ERR[j - i];
    }
    ClassifyFindsLastTerminator(buf, i);
  }

  /** `sim_check_res`: scans `buf[MIN_BUFFER-1]` down to `buf[1]` for a carriage
      return that starts "\r\nOK\r\n" (tried first) or "\r\nERROR\r\n". */
  method CheckResponse(buf: array<Byte>) returns (r: UInt8)
    requires buf.Length == MIN_BUFFER
    ensures r == Classify(buf[..])
  {
    var i := MIN_BUFFER - 1;
    while i > 0
      invariant 0 <= i < MIN_BUFFER
      invariant ClassifyFrom(buf[..], i) == Classify(buf[..])
    {
      if buf[i] == CR {
        if PatternAt(buf[..], i, RES_OK) {
          return SIM_RES_OK;
        } else if PatternAt(buf[..], i, RES_ERR) {
          return SIM_RES_ERROR;
        }
      }
      i := i - 1;
    }
    return SIM_NO_RES;
  }

  // ---------------------------------------------------------------- sim_get_sms_state

  const REC_UNREAD: seq<Byte> := "REC UNREAD"
  const REC_READ: seq<Byte> := "REC READ"

  /** A double quote followed by one of the two status tokens of +CMGR. */
  predicate StateTokenAt(buf: seq<Byte>, i: nat)
    requires i < |buf|
  {
    buf[i] == QUOTE && (PatternAt(buf, i + 1, REC_UNREAD) || PatternAt(buf, i + 1, REC_READ))
  }

  /** The forward scan of `sim_get_sms_state` from index `i`. */
  function SmsStateFrom(buf: seq<Byte>, i: nat): UInt8
    requires i <= |buf|
    decreases |buf| - i
  {
    if i == |buf| then NO_SMS
    else if buf[i] == QUOTE && PatternAt(buf, i + 1, REC_UNREAD) then SMS_UNREAD
    else if buf[i] == QUOTE && PatternAt(buf, i + 1, REC_READ) then SMS_READ
    else SmsStateFrom(buf, i + 1)
  }

  /** What `sim_get_sms_state` returns for a buffer. */
  function SmsState(buf: seq<Byte>): UInt8
  {
    SmsStateFrom(buf, 0)
  }

  lemma {:induction false} SmsStateSkips(buf: seq<Byte>, lo: nat, hi: nat)
    requires lo <= hi <= |buf|
    requires forall j :: lo <= j < hi ==> !StateTokenAt(buf, j)
    ensures SmsStateFrom(buf, lo) == SmsStateFrom(buf, hi)
    decreases hi - lo
  {
    if lo < hi {
      assert !StateTokenAt(buf, lo);
      SmsStateSkips(buf, lo + 1, hi);
    }
  }

  /** The state is decided by the FIRST quote followed by a status token:
      UNREAD when "REC UNREAD" follows it, READ otherwise. */
  lemma SmsStateFindsFirstToken(buf: seq<Byte>, q: nat)
    requires q < |buf| && StateTokenAt(buf, q)
    requires forall j :: 0 <= j < q ==> !StateTokenAt(buf, j)
    ensures SmsState(buf) == if PatternAt(buf, q + 1, REC_UNREAD) then SMS_UNREAD else SMS_READ
  {
    SmsStateSkips(buf, 0, q);
  }

  /** NO_SMS exactly when no quote is followed by a status token. */
  lemma {:induction false} SmsStateNone(buf: seq<Byte>)
    ensures SmsState(buf) == NO_SMS <==> forall j :: 0 <= j < |buf| ==> !StateTokenAt(buf, j)
  {
    if forall j :: 0 <= j < |buf| ==> !StateTokenAt(buf, j) {
      SmsStateSkips(buf, 0, |buf|);
    } else {
      var i :| 0 <= i < |buf| && StateTokenAt(buf, i);
      FirstTokenExists(buf, i);
      var q :| 0 <= q <= i && StateTokenAt(buf, q) && forall j :: 0 <= j < q ==> !StateTokenAt(buf, j);
      SmsStateFindsFirstToken(buf, q);
    }
  }

  lemma {:induction false} FirstTokenExists(buf: seq<Byte>, i: nat)
    requires i < |buf| && StateTokenAt(buf, i)
    ensures exists q :: 0 <= q <= i && StateTokenAt(buf, q) && forall j :: 0 <= j < q ==> !StateTokenAt(buf, j)
    decreases i
  {
    if exists j :: 0 <= j < i && StateTokenAt(buf, j) {
      var j :| 0 <= j < i && StateTokenAt(buf, j);
      FirstTokenExists(buf, j);
    } else {
      assert forall j :: 0 <= j < i ==> !StateTokenAt(buf, j);
    }
  }

  /** `sim_get_sms_state`: the loop over `buf[0..MIN_BUFFER)`. The trailing
      `if (i == MIN_BUFFER)` always holds once the loop has run to its end
      (asserted below), so the missing return after it is never reached. */
  method GetSmsState(buf: array<Byte>) returns (r: UInt8)
    requires buf.Length == MIN_BUFFER
    ensures r == SmsState(buf[..])
  {
    var i := 0;
    while i < MIN_BUFFER
      invariant 0 <= i <= MIN_BUFFER
      invariant SmsStateFrom(buf[..], i) == SmsState(buf[..])
    {
      if buf[i] == QUOTE {
        if PatternAt(buf[..], i + 1, REC_UNREAD) {
          return SMS_UNREAD;
        } else if PatternAt(buf[..], i + 1, REC_READ) {
          return SMS_READ;
        }
      }
      i := i + 1;
    }
    assert i == MIN_BUFFER;
    return NO_SMS;
  }

  // ---------------------------------------------------------------- find_c

  /** Number of steps past the first probe: `end2 - end1` forward, `end1 - end2` backward. */
  function Span(end1: UInt8, end2: UInt8): nat
  {
    if end1 <= end2 then end2 - end1 else end1 - end2
  }

  /** Absolute index examined at step `k` of the scan. */
  function Probe(end1: UInt8, end2: UInt8, k: nat): int
  {
    if end1 <= end2 then end1 + k else end1 - k
  }

  /** The `uint8_t` step counter of `find_c` wraps from 255 to 0, so the loop
      ends only if the span is below 255 or the character occurs in the scanned range. */
  predicate FindTerminates(buffer: seq<Byte>, end1: UInt8, end2: UInt8, c: Byte)
  {
    (end1 <= end2 ==> end2 < |buffer|) && (end2 < end1 ==> end1 < |buffer|)
    && (Span(end1, end2) < 255 || exists k :: 0 <= k <= Span(end1, end2) && buffer[Probe(end1, end2, k)] == c)
  }

  /** The scan of `find_c` from step `k` on. */
  function FindFrom(buffer: seq<Byte>, end1: UInt8, end2: UInt8, c: Byte, k: nat): int
    requires (end1 <= end2 ==> end2 < |buffer|) && (end2 < end1 ==> end1 < |buffer|)
    requires k <= Span(end1, end2) + 1
    decreases Span(end1, end2) + 1 - k
  {
    if k == Span(end1, end2) + 1 then k
    else if buffer[Probe(end1, end2, k)] == c then Probe(end1, end2, k)
    else FindFrom(buffer, end1, end2, c, k + 1)
  }

  /** What `find_c(buffer, end1, end2, c)` returns. */
  function FindChar(buffer: seq<Byte>, end1: UInt8, end2: UInt8, c: Byte): int
    requires FindTerminates(buffer, end1, end2, c)
  {
    FindFrom(buffer, end1, end2, c, 0)
  }

  lemma {:induction false} FindFromFirst(buffer: seq<Byte>, end1: UInt8, end2: UInt8, c: Byte, k: nat, m: nat)
    requires (end1 <= end2 ==> end2 < |buffer|) && (end2 < end1 ==> end1 < |buffer|)
    requires k <= m <= Span(end1, end2) && buffer[Probe(end1, end2, m)] == c
    requires forall j :: k <= j < m ==> buffer[Probe(end1, end2, j)] != c
    ensures FindFrom(buffer, end1, end2, c, k) == Probe(end1, end2, m)
    decreases m - k
  {
    if k < m {
      FindFromFirst(buffer, end1, end2, c, k + 1, m);
    }
  }

  lemma {:induction false} FindFromNone(buffer: seq<Byte>, end1: UInt8, end2: UInt8, c: Byte, k: nat)
    requires (end1 <= end2 ==> end2 < |buffer|) && (end2 < end1 ==> end1 < |buffer|)
    requires k <= Span(end1, end2) + 1
    requires forall j :: k <= j <= Span(end1, end2) ==> buffer[Probe(end1, end2, j)] != c
    ensures FindFrom(buffer, end1, end2, c, k) == Span(end1, end2) + 1
    decreases Span(end1, end2) + 1 - k
  {
    if k <= Span(end1, end2) {
      FindFromNone(buffer, end1, end2, c, k + 1);
    }
  }

  /** A match: `find_c` returns the absolute index of the first match in scan direction. */
  lemma FindCharFound(buffer: seq<Byte>, end1: UInt8, end2: UInt8, c: Byte, m: nat)
    requires FindTerminates(buffer, end1, end2, c)
    requires m <= Span(end1, end2) && buffer[Probe(end1, end2, m)] == c
    requires forall j :: 0 <= j < m ==> buffer[Probe(end1, end2, j)] != c
    ensures FindChar(buffer, end1, end2, c) == Probe(end1, end2, m)
    ensures buffer[FindChar(buffer, end1, end2, c)] == c
  {
    FindFromFirst(buffer, end1, end2, c, 0, m);
  }

  /** No match: `find_c` returns `|end2 - end1| + 1`, not the 255 or 0 its comment announces. */
  lemma FindCharNotFound(buffer: seq<Byte>, end1: UInt8, end2: UInt8, c: Byte)
    requires FindTerminates(buffer, end1, end2, c)
    requires forall j :: 0 <= j <= Span(end1, end2) ==> buffer[Probe(end1, end2, j)] != c
    ensures FindChar(buffer, end1, end2, c) == Span(end1, end2) + 1
  {
    FindFromNone(buffer, end1, end2, c, 0);
  }

  /** The not-found value can coincide with a found index: a forward search of
      [3, 10] returns 8 both when the character is absent and when it first occurs at 8. */
  lemma FindCharAmbiguous(c: Byte, d: Byte)
    requires c != d
    ensures var absent := seq(11, _ => d);
            var at8 := absent[8 := c];
            FindChar(absent, 3, 10, c) == 8 && FindChar(at8, 3, 10, c) == 8
  {
    var absent := seq(11, _ => d);
    var at8 := absent[8 := c];
    FindCharNotFound(absent, 3, 10, c);
    FindCharFound(at8, 3, 10, c, 5);
  }

  /** With the full range 0..255 and the character absent, the `uint8_t`
      counter satisfies `i <= end2` at every value and no probe matches, so
      the loop of `find_c` never ends. The intended search answers None. */
  lemma FindFullRangeNeverEnds(c: Byte, d: Byte)
    requires c != d
    ensures var absent := seq(256, _ => d);
            (forall i: UInt8 :: i <= Span(0, 255) && absent[Probe(0, 255, i)] != c
                                && absent[Probe(255, 0, i)] != c)
            && !FindTerminates(absent, 0, 255, c) && !FindTerminates(absent, 255, 0, c)
            && FindFirstFrom(absent, 0, 255, c, 0) == None
  {
    var absent := seq(256, _ => d);
    forall i: UInt8
      ensures i <= Span(0, 255) && absent[Probe(0, 255, i)] != c && absent[Probe(255, 0, i)] != c
    {
      assert absent[Probe(0, 255, i)] == d && absent[Probe(255, 0, i)] == d;
    }
  }

  /** `find_c`: the forward (`end1 <= end2`) or backward scan with a `uint8_t` counter. */
  method FindC(buffer: array<Byte>, end1: UInt8, end2: UInt8, c: Byte) returns (r: int)
    requires FindTerminates(buffer[..], end1, end2, c)
    ensures r == FindChar(buffer[..], end1, end2, c)
  {
    var span: UInt8 := if end1 <= end2 then end2 - end1 else end1 - end2;
    var i := 0;
    while i <= span
      invariant 0 <= i <= span + 1
      invariant FindFrom(buffer[..], end1, end2, c, i) == FindChar(buffer[..], end1, end2, c)
      invariant span == 255 ==> exists k :: i <= k <= span && buffer[Probe(end1, end2, k)] == c
      decreases span + 1 - i
    {
      var at := if end1 <= end2 then end1 + i else end1 - i;
      if buffer[at] == c {
        return at;
      }
      i := i + 1;
    }
    r := i;
  }

  /** The search as its comment intends it: a not-found answer that no index
      can be mistaken for. Agrees with `find_c` whenever the character occurs. */
  function FindFirstFrom(buffer: seq<Byte>, end1: UInt8, end2: UInt8, c: Byte, k: nat): (r: Option<int>)
    requires (end1 <= end2 ==> end2 < |buffer|) && (end2 < end1 ==> end1 < |buffer|)
    requires k <= Span(end1, end2) + 1
    ensures r.None? <==> forall j :: k <= j <= Span(end1, end2) ==> buffer[Probe(end1, end2, j)] != c
    ensures r.Some? ==> exists m :: k <= m <= Span(end1, end2) && r.value == Probe(end1, end2, m)
                                    && buffer[Probe(end1, end2, m)] == c
    ensures r.Some? ==> r.value == FindFrom(buffer, end1, end2, c, k)
    decreases Span(end1, end2) + 1 - k
  {
    if k == Span(end1, end2) + 1 then None
    else if buffer[Probe(end1, end2, k)] == c then Some(Probe(end1, end2, k))
    else FindFirstFrom(buffer, end1, end2, c, k + 1)
  }

  /** Absent characters give None; present ones give what `find_c` gives, so
      the ambiguous case of FindCharAmbiguous is told apart. */
  lemma FindFirstSeparates(c: Byte, d: Byte)
    requires c != d
    ensures var absent := seq(11, _ => d);
            FindFirstFrom(absent, 3, 10, c, 0) == None
            && FindFirstFrom(absent[8 := c], 3, 10, c, 0) == Some(8)
  {
    var absent := seq(11, _ => d);
    assert absent[8 := c][Probe(3, 10, 5)] == c;
    FindCharAmbiguous(c, d);
  }
}
