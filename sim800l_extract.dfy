/** The extraction helpers of Src/sim800l.c: the signal-strength parse at the
    end of `sim_signal_strength`, `sim_get_sms_contact` and `sim_get_sms_data`.
    Each first asks the classifier and treats a nonzero answer as "a response
    is present". */
module Sim800Extract {
  import opened Bytes
  import opened Sim800Defs
  import opened Sim800Scan

  // ---------------------------------------------------------------- signal strength

  /** The digits read two bytes past a ':' at `p - 2`: one digit when a comma
      follows it, otherwise two digits as tens and units, stored into a `uint8_t`.
      None when the second byte lies outside the buffer. */
  function SignalDigits(buf: seq<Byte>, p: nat): Option<UInt8>
  {
    if p + 1 < |buf| then
      Some(if buf[p + 1] == COMMA then (buf[p] as int - 0x30) % 256
           else (10 * (buf[p] as int - 0x30) + (buf[p + 1] as int - 0x30)) % 256)
    else None
  }

  /** The forward scan of `sim_signal_strength` for the first ':' from index `i`.
      None when the loop runs off the end of the buffer: the function then
      reaches its end without a return statement. */
  function SignalFrom(buf: seq<Byte>, i: nat): Option<UInt8>
    requires i <= |buf|
    decreases |buf| - i
  {
    if i == |buf| then None
    else if buf[i] == COLON then SignalDigits(buf, (i + 2) % 256)
    else SignalFrom(buf, i + 1)
  }

  /** What `sim_signal_strength` returns once its exchange has settled:
      Some(SIM_RES_ERROR) when the classifier answers 0, the parsed value
      otherwise, None where the source defines no value. */
  function SignalResult(buf: seq<Byte>): Option<UInt8>
    requires |buf| >= 1
  {
    if Classify(buf) != 0 then SignalFrom(buf, 0) else Some(SIM_RES_ERROR)
  }

  /** The parse loop of `sim_signal_strength`, with its `uint8_t` index. */
  method ParseSignal(buf: array<Byte>) returns (r: Option<UInt8>)
    requires buf.Length == MIN_BUFFER
    ensures r == SignalFrom(buf[..], 0)
  {
    var i: UInt8 := 0;
    while i < MIN_BUFFER
      invariant i <= MIN_BUFFER
      invariant SignalFrom(buf[..], i) == SignalFrom(buf[..], 0)
    {
      if buf[i] == COLON {
        var p := (i + 2) % 256;
        if p + 1 < MIN_BUFFER {
          if buf[p + 1] == COMMA {
            r := Some((buf[p] as int - 0x30) % 256);
          } else {
            r := Some((10 * (buf[p] as int - 0x30) + (buf[p + 1] as int - 0x30)) % 256);
          }
        } else {
          r := None;
        }
        return;
      }
      i := i + 1;
    }
    r := None;
  }

  lemma {:induction false} SignalSkips(buf: seq<Byte>, lo: nat, hi: nat)
    requires lo <= hi <= |buf|
    requires forall j :: lo <= j < hi ==> buf[j] != COLON
    ensures SignalFrom(buf, lo) == SignalFrom(buf, hi)
    decreases hi - lo
  {
    if lo < hi {
      SignalSkips(buf, lo + 1, hi);
    }
  }

  /** The value is read from the two bytes after the FIRST colon and the byte
      after it (the space of "+CSQ: "): one digit before a comma, else two. */
  lemma SignalAfterFirstColon(buf: seq<Byte>, p: nat)
    requires p + 3 < |buf| <= 255 && buf[p] == COLON
    requires forall j :: 0 <= j < p ==> buf[j] != COLON
    requires '0' <= buf[p + 2] <= '9'
    ensures buf[p + 3] == COMMA ==> SignalFrom(buf, 0) == Some(buf[p + 2] as int - '0' as int)
    ensures '0' <= buf[p + 3] <= '9' ==>
      SignalFrom(buf, 0) == Some(10 * (buf[p + 2] as int - '0' as int) + (buf[p + 3] as int - '0' as int))
  {
    SignalSkips(buf, 0, p);
  }

  /** Without any colon the loop runs off the end: no value is defined. */
  lemma SignalWithoutColon(buf: seq<Byte>)
    requires COLON !in buf
    ensures SignalFrom(buf, 0) == None
  {
    SignalSkips(buf, 0, |buf|);
  }

  /** Without the space of "+CSQ: " the two skipped bytes land on the digits:
      ":23,0" reads as 3 and ":5,0" as (10 * (',' - '0') + 0) mod 256 = 216. */
  lemma SignalWithoutSpace(buf: seq<Byte>, p: nat)
    requires p + 4 < |buf| <= 255 && buf[p] == COLON
    requires forall j :: 0 <= j < p ==> buf[j] != COLON
    ensures buf[p + 1] == '2' && buf[p + 2] == '3' && buf[p + 3] == COMMA ==> SignalFrom(buf, 0) == Some(3)
    ensures buf[p + 1] == '5' && buf[p + 2] == COMMA && buf[p + 3] == '0' ==> SignalFrom(buf, 0) == Some(216)
  {
    SignalSkips(buf, 0, p);
    assert SignalFrom(buf, 0) == SignalDigits(buf, p + 2);
  }

  /** +CSQ replies with a one-digit and a two-digit signal value. */
  const CSQ_REPLY_5: seq<Byte> := "\r\n+CSQ: 5,0\r\n\r\nOK\r\n"
  const CSQ_REPLY_23: seq<Byte> := "\r\n+CSQ: 23,0\r\n\r\nOK\r\n"

  /** The reply "+CSQ: 5,0" then OK classifies as OK and parses to 5. */
  lemma SignalExampleOneDigit()
    requires |CSQ_REPLY_5| <= MIN_BUFFER
    ensures var buf := Received(NUL, CSQ_REPLY_5);
            Classify(buf) == SIM_RES_OK && SignalFrom(buf, 0) == Some(5)
            && (SIM_RES_OK != 0 ==> SignalResult(buf) == Some(5))
  {
    var s := CSQ_REPLY_5;
    var buf := Received(NUL, s);
    assert |s| == 19 && |buf| == MIN_BUFFER;
    forall j | 0 <= j < |s| ensures buf[j] == s[j] { }
    forall j | 0 <= j < 6 ensures buf[j] != COLON {
      assert buf[j] == s[j];
    }
    assert buf[6] == COLON && buf[8] == '5' && buf[9] == COMMA;
    SignalAfterFirstColon(buf, 6);
    assert buf[13..19] == RES_OK;
    ReplyEndingInOk(buf, 13);
  }

  /** The reply "+CSQ: 23,0" then OK classifies as OK and parses to 23. */
  lemma SignalExampleTwoDigits()
    requires |CSQ_REPLY_23| <= MIN_BUFFER
    ensures var buf := Received(NUL, CSQ_REPLY_23);
            Classify(buf) == SIM_RES_OK && SignalFrom(buf, 0) == Some(23)
            && (SIM_RES_OK != 0 ==> SignalResult(buf) == Some(23))
  {
    var s := CSQ_REPLY_23;
    var buf := Received(NUL, s);
    assert |s| == 20 && |buf| == MIN_BUFFER;
    forall j | 0 <= j < |s| ensures buf[j] == s[j] { }
    forall j | 0 <= j < 6 ensures buf[j] != COLON {
      assert buf[j] == s[j];
    }
    assert buf[6] == COLON && buf[8] == '2' && buf[9] == '3';
    SignalAfterFirstColon(buf, 6);
    assert buf[14..20] == RES_OK;
    ReplyEndingInOk(buf, 14);
  }

  /** A received reply whose last non-NUL bytes, starting at `i`, are "\r\nOK\r\n". */
  lemma ReplyEndingInOk(buf: seq<Byte>, i: nat)
    requires |buf| == MIN_BUFFER && 1 <= i && i + LEN_CMD_RES_OK <= |buf|
    requires buf[i..i + LEN_CMD_RES_OK] == RES_OK
    requires forall j :: i + LEN_CMD_RES_OK <= j < |buf| ==> buf[j] == NUL
    ensures Classify(buf) == SIM_RES_OK
  {
    forall j | i < j < |buf| ensures !TerminatorAt(buf, j) {
      if j < i + LEN_CMD_RES_OK {
        assert buf[j] == RES_OK[j - i];
        if j == i + 4 {
          assert !PatternAt(buf, j, RES_OK) by {
            if j + 6 <= |buf| {
              assert buf[j..j + 6][2] == buf[i + 6] == NUL;
            }
          }
          assert !PatternAt(buf, j, RES_ERR) by {
            if j + 9 <= |buf| {
              assert buf[j..j + 9][2] == buf[i + 6] == NUL;
            }
          }
        }
      }
    }
    ClassifyFindsLastTerminator(buf, i);
  }

  // ---------------------------------------------------------------- sim_get_sms_contact

  /** The comma scan of `sim_get_sms_contact`: the first ',' at or after `i`, or `|buf|`. */
  function CommaFrom(buf: seq<Byte>, i: nat): (r: nat)
    requires i <= |buf|
    ensures i <= r <= |buf|
    ensures r < |buf| ==> buf[r] == COMMA
    ensures forall j :: i <= j < r ==> buf[j] != COMMA
    decreases |buf| - i
  {
    if i == |buf| then i
    else if buf[i] == COMMA then i
    else CommaFrom(buf, i + 1)
  }

  /** Offset of the phone number: two bytes past the first comma at or after
      LEN_CMD_READ_SMS (past `,"` in `+CMGR: "REC UNREAD","+84...`). */
  function ContactStart(buf: seq<Byte>): nat
    requires LEN_CMD_READ_SMS <= |buf|
  {
    CommaFrom(buf, LEN_CMD_READ_SMS) + 2
  }

  /** The `strncpy` of `sim_get_sms_contact` reads inside the buffer. This
      excludes a buffer without a comma, where the source reads from `buf + MIN_BUFFER + 2`. */
  predicate ContactReadable(buf: seq<Byte>)
    requires LEN_CMD_READ_SMS <= |buf|
  {
    ContactStart(buf) <= |buf| && StrNCpyReadable(buf[ContactStart(buf)..], LEN_PHONE_NUM)
  }

  /** The LEN_PHONE_NUM bytes `sim_get_sms_contact` writes into `num`. */
  function Contact(buf: seq<Byte>): (r: seq<Byte>)
    requires LEN_CMD_READ_SMS <= |buf| && ContactReadable(buf)
    ensures |r| == LEN_PHONE_NUM
  {
    StrNCpy(buf[ContactStart(buf)..], LEN_PHONE_NUM)
  }

  /** `sim_get_sms_contact`. Its `i == 0` test never succeeds: `i` starts at
      LEN_CMD_READ_SMS and only grows, so it never returns NO_SMS. */
  method GetSmsContact(num: array<Byte>, buf: array<Byte>) returns (r: UInt8)
    requires buf.Length == MIN_BUFFER && num.Length >= LEN_PHONE_NUM && num != buf
    requires Classify(buf[..]) != 0 ==> ContactReadable(buf[..])
    modifies num
    ensures Classify(buf[..]) == 0 ==> r == SIM_RES_ERROR && num[..] == old(num[..])
    ensures Classify(buf[..]) != 0 ==>
      r == SIM_RES_OK && num[..] == Contact(buf[..]) + old(num[LEN_PHONE_NUM..])
  {
    var res := CheckResponse(buf);
    if res != 0 {
      var i := LEN_CMD_READ_SMS;
      while i < MIN_BUFFER
        invariant LEN_CMD_READ_SMS <= i <= MIN_BUFFER
        invariant CommaFrom(buf[..], i) == CommaFrom(buf[..], LEN_CMD_READ_SMS)
      {
        if buf[i] == COMMA {
          break;
        }
        i := i + 1;
      }
      if i == 0 {
        return NO_SMS;
      }
      StrNCpyInto(num, 0, buf[i + 2..], LEN_PHONE_NUM);
      r := SIM_RES_OK;
    } else {
      r := SIM_RES_ERROR;
    }
  }

  /** A +CMGR reply to "AT+CMGR=05,0". */
  const CMGR_UNREAD_REPLY: seq<Byte> :=
    "\r\n+CMGR: \"REC UNREAD\"," + "\"+84901234567\"," + "\"\",\"24/12/01\"\r\n" + "hi\r\n\r\nOK\r\n"

  /** A +CMGR header yields the sender's number, '+' included, when LEN_PHONE_NUM is 12. */
  lemma ContactExample()
    requires LEN_PHONE_NUM == 12 && |CMGR_UNREAD_REPLY| <= MIN_BUFFER
    ensures var buf := Received(NUL, CMGR_UNREAD_REPLY);
            ContactReadable(buf) && Contact(buf) == "+84901234567"
  {
    var s := CMGR_UNREAD_REPLY;
    assert |s| == 62;
    var buf := Received(NUL, s);
    assert |buf| == MIN_BUFFER >= 62;
    assert buf[21] == COMMA;
    assert forall j :: LEN_CMD_READ_SMS <= j < 21 ==> buf[j] == s[j] != COMMA;
    assert ContactStart(buf) == 23;
    assert s[22..37] == "\"+84901234567\",";
    assert buf[23..35] == s[23..35] == "+84901234567";
    assert buf[23..][..12] == buf[23..35];
    StrNCpyVerbatim(buf[23..35]);
  }

  // ---------------------------------------------------------------- sim_get_sms_data

  /** The backward scan `for (i = MIN_BUFFER-1; i > 0; i--) if (buf[i] == x) break;`
      from index `i`: the last index >= 1 at or below `i` holding `x`, or 0. */
  function LastIndexFrom(buf: seq<Byte>, x: Byte, i: nat): (r: nat)
    requires i < |buf|
    ensures r <= i
    ensures r > 0 ==> buf[r] == x
    ensures forall j :: r < j <= i && j >= 1 ==> buf[j] != x
    decreases i
  {
    if i == 0 then 0
    else if buf[i] == x then i
    else LastIndexFrom(buf, x, i - 1)
  }

  function LastIndex(buf: seq<Byte>, x: Byte): nat
    requires |buf| >= 1
  {
    LastIndexFrom(buf, x, |buf| - 1)
  }

  /** Where the copy starts: three bytes past the last '"' (skipping the closing
      quote, CR and LF of the header), as a `uint8_t`; 0 when there is no quote. */
  function DataStart(buf: seq<Byte>): UInt8
    requires |buf| >= 1
  {
    var q := LastIndex(buf, QUOTE);
    if q == 0 then 0 else (q + 3) % 256
  }

  /** Where the copy ends: the last carriage return, 0 when there is none. */
  function DataEnd(buf: seq<Byte>): nat
    requires |buf| >= 1
  {
    LastIndex(buf, CR)
  }

  /** `strncpy(data, buf + i, j - i)` with `j < i` passes a negative length,
      which becomes a huge `size_t`; the model excludes it. */
  predicate DataReadable(buf: seq<Byte>)
    requires |buf| >= 1
  {
    DataStart(buf) != 0 ==> DataStart(buf) <= DataEnd(buf)
  }

  /** The bytes `sim_get_sms_data` writes into `data`. */
  function Data(buf: seq<Byte>): (r: seq<Byte>)
    requires |buf| >= 1 && DataStart(buf) != 0 && DataReadable(buf)
    ensures |r| == DataEnd(buf) - DataStart(buf)
  {
    StrNCpy(buf[DataStart(buf)..], DataEnd(buf) - DataStart(buf))
  }

  /** The backward scan `for (i = MIN_BUFFER-1; i > 0; i--) if (buf[i] == x) break;`
      shared by both loops of `sim_get_sms_data`. */
  method ScanBack(buf: array<Byte>, x: Byte) returns (i: UInt8)
    requires buf.Length == MIN_BUFFER
    ensures i == LastIndex(buf[..], x)
  {
    i := MIN_BUFFER - 1;
    while i > 0
      invariant i < MIN_BUFFER
      invariant LastIndexFrom(buf[..], x, i) == LastIndex(buf[..], x)
    {
      if buf[i] == x {
        break;
      }
      i := i - 1;
    }
  }

  /** `sim_get_sms_data`: returns SIM_RES_OK after copying (not a length, as
      its comment says), NO_SMS when the quote scan yields 0, and
      SIM_RES_ERROR without writing when the classifier answers 0. The `i += 3`
      the source does before leaving its first loop is done after ScanBack. */
  method GetSmsData(data: array<Byte>, buf: array<Byte>) returns (r: UInt8)
    requires buf.Length == MIN_BUFFER && data != buf
    requires Classify(buf[..]) != 0 ==> DataReadable(buf[..])
    requires Classify(buf[..]) != 0 && DataStart(buf[..]) != 0 ==>
      data.Length >= DataEnd(buf[..]) - DataStart(buf[..])
    modifies data
    ensures Classify(buf[..]) == 0 ==> r == SIM_RES_ERROR && data[..] == old(data[..])
    ensures Classify(buf[..]) != 0 && DataStart(buf[..]) == 0 ==> r == NO_SMS && data[..] == old(data[..])
    ensures Classify(buf[..]) != 0 && DataStart(buf[..]) != 0 ==>
      r == SIM_RES_OK
      && data[..] == Data(buf[..]) + old(data[DataEnd(buf[..]) - DataStart(buf[..])..])
  {
    var res := CheckResponse(buf);
    if res == 0 {
      return SIM_RES_ERROR;
    }
    var i := ScanBack(buf, QUOTE);
    if i != 0 {
      i := (i + 3) % 256;
    }
    assert i == DataStart(buf[..]);
    if i == 0 {
      return NO_SMS;
    }
    var j := ScanBack(buf, CR);
    assert j == DataEnd(buf[..]);
    StrNCpyInto(data, 0, buf[i..], j - i);
    r := SIM_RES_OK;
  }

  /** A +CMGR reply to "AT+CMGR=05,1" for a message already read. */
  const CMGR_READ_REPLY: seq<Byte> :=
    "\r\n+CMGR: \"REC READ\"," + "\"+84901234567\"\r\n" + "hi\r\n\r\nOK\r\n"

  /** For a complete +CMGR reply the copied body runs up to the carriage return
      of the final "OK\r\n", so it carries the trailing "\r\n\r\nOK" as well. */
  lemma DataIncludesResultCode()
    requires |CMGR_READ_REPLY| <= MIN_BUFFER
    ensures var buf := Received(NUL, CMGR_READ_REPLY);
            DataStart(buf) != 0 && DataReadable(buf) && Data(buf) == "hi\r\n\r\nOK"
  {
    var s := CMGR_READ_REPLY;
    var buf := Received(NUL, s);
    assert |s| == 46;
    assert buf[33] == QUOTE && buf[44] == CR;
    assert forall j :: 33 < j < |buf| ==> buf[j] != QUOTE;
    assert forall j :: 44 < j < |buf| ==> buf[j] != CR;
    assert DataStart(buf) == 36 && DataEnd(buf) == 44;
    assert buf[36..44] == "hi\r\n\r\nOK";
    StrNCpyVerbatim(buf[36..44]);
    assert buf[36..][..8] == buf[36..44];
  }
}
