/** The command side of Src/sim800l.c: the mutable command templates, the
    receive counter `RxCounter`, the bytes written to the modem's UART and the
    fixed exchange every command performs (clear the buffer, reset the counter,
    transmit, poll the classifier until it settles). */
module Sim800Driver {
  import opened Bytes
  import opened Sim800Defs
  import opened Sim800Scan
  import opened Sim800Extract

  /** The reply the modem sends can be poll-waited for: it fits the buffer and,
      once fully received into a buffer cleared to `fill`, ends in OK or ERROR.
      Without this the source's busy-poll never returns. */
  ghost predicate ModemAnswers(fill: Byte, reply: seq<Byte>)
  {
    |reply| <= MIN_BUFFER && Settled(Classify(Received(fill, reply)))
  }

  /** The number of reply bytes received when the poll loop first sees OK or
      ERROR, counting from `k` received bytes. */
  ghost function PollStop(fill: Byte, reply: seq<Byte>, k: nat): (stop: nat)
    requires ModemAnswers(fill, reply) && k <= |reply|
    ensures k <= stop <= |reply|
    ensures Settled(Classify(Received(fill, reply[..stop])))
    ensures forall j :: k <= j < stop ==> !Settled(Classify(Received(fill, reply[..j])))
    decreases |reply| - k
  {
    if Settled(Classify(Received(fill, reply[..k]))) then k
    else
      assert reply[..|reply|] == reply;
      PollStop(fill, reply, k + 1)
  }

  /** One received byte lands at the position the counter names. */
  lemma ReceiveOne(fill: Byte, reply: seq<Byte>, k: nat)
    requires k < |reply| <= MIN_BUFFER
    ensures Received(fill, reply[..k + 1]) == Received(fill, reply[..k])[k := reply[k]]
  {
    assert reply[..k + 1] == reply[..k] + [reply[k]];
  }

  class Sim800 {
    /** The templates the source updates in place (Src/sim800l.c:8-14);
        AT+IFC and AT+CSQ are never written and stay constants. */
    const rejInCallCmd: array<Byte>
    const textModeCmd: array<Byte>
    const readSmsCmd: array<Byte>
    const deleSmsCmd: array<Byte>
    const sendSmsCmd: array<Byte>
    const cnmiCmd: array<Byte>

    /** `RxCounter`: bytes received since the exchange began. */
    var rxCounter: nat
    /** Every byte written to the modem's UART, oldest first. */
    var sent: seq<Byte>

    function Templates(): set<array<Byte>>
      reads this
    {
      {rejInCallCmd, textModeCmd, readSmsCmd, deleSmsCmd, sendSmsCmd, cnmiCmd}
    }

    /** Six separate arrays, each its literal's length, each differing from
        its literal only at the placeholders its command rewrites. */
    ghost predicate Valid()
      reads this, Templates()
    {
      rejInCallCmd != textModeCmd && rejInCallCmd != readSmsCmd && rejInCallCmd != deleSmsCmd
      && rejInCallCmd != sendSmsCmd && rejInCallCmd != cnmiCmd
      && textModeCmd != readSmsCmd && textModeCmd != deleSmsCmd && textModeCmd != sendSmsCmd
      && textModeCmd != cnmiCmd
      && readSmsCmd != deleSmsCmd && readSmsCmd != sendSmsCmd && readSmsCmd != cnmiCmd
      && deleSmsCmd != sendSmsCmd && deleSmsCmd != cnmiCmd
      && sendSmsCmd != cnmiCmd
      && SameOutside(rejInCallCmd[..], REJ_IN_CALL_TEMPLATE, REJ_IN_CALL_HOLES)
      && SameOutside(textModeCmd[..], TEXT_MODE_TEMPLATE, TEXT_MODE_HOLES)
      && SameOutside(readSmsCmd[..], READ_SMS_TEMPLATE, READ_SMS_HOLES)
      && SameOutside(deleSmsCmd[..], DELE_SMS_TEMPLATE, DELE_SMS_HOLES)
      && SameOutside(sendSmsCmd[..], SEND_SMS_TEMPLATE, SEND_SMS_HOLES)
      && SameOutside(cnmiCmd[..], CNMI_TEMPLATE, CNMI_HOLES)
    }

    /** The state after an exchange over `buf` that returned `r`: the poll
        stopped at the first received prefix that classifies as OK or ERROR,
        and returned that classification. */
    ghost predicate Answered(fill: Byte, reply: seq<Byte>, buf: array<Byte>, r: UInt8)
      reads this, buf
      requires ModemAnswers(fill, reply)
    {
      rxCounter == PollStop(fill, reply, 0)
      && buf[..] == Received(fill, reply[..rxCounter])
      && r == Classify(buf[..]) && Settled(r)
    }

    /** The templates as the source initialises them. */
    constructor ()
      ensures Valid() && fresh(Templates())
      ensures rejInCallCmd[..] == REJ_IN_CALL_TEMPLATE && textModeCmd[..] == TEXT_MODE_TEMPLATE
      ensures readSmsCmd[..] == READ_SMS_TEMPLATE && deleSmsCmd[..] == DELE_SMS_TEMPLATE
      ensures sendSmsCmd[..] == SEND_SMS_TEMPLATE && cnmiCmd[..] == CNMI_TEMPLATE
      ensures rxCounter == 0 && sent == []
    {
      rejInCallCmd := new Byte[LEN_CMD_REJ_IN_CALL](i requires 0 <= i < LEN_CMD_REJ_IN_CALL => REJ_IN_CALL_TEMPLATE[i]);
      textModeCmd := new Byte[LEN_CMD_TEXT_MODE](i requires 0 <= i < LEN_CMD_TEXT_MODE => TEXT_MODE_TEMPLATE[i]);
      readSmsCmd := new Byte[LEN_CMD_READ_SMS](i requires 0 <= i < LEN_CMD_READ_SMS => READ_SMS_TEMPLATE[i]);
      deleSmsCmd := new Byte[LEN_CMD_DELE_SMS](i requires 0 <= i < LEN_CMD_DELE_SMS => DELE_SMS_TEMPLATE[i]);
      sendSmsCmd := new Byte[|SEND_SMS_TEMPLATE|](i requires 0 <= i < |SEND_SMS_TEMPLATE| => SEND_SMS_TEMPLATE[i]);
      cnmiCmd := new Byte[LEN_CMD_CNMI_MODE](i requires 0 <= i < LEN_CMD_CNMI_MODE => CNMI_TEMPLATE[i]);
      rxCounter := 0;
      sent := [];
    }

    /** `putchar`: one byte to the modem. */
    method PutChar(c: Byte)
      modifies this
      ensures sent == old(sent) + [c] && rxCounter == old(rxCounter)
    {
      sent := sent + [c];
    }

    /** `push_cmd`: the first `len` bytes of `cmd`, in order, nothing else. */
    method PushCmd(cmd: seq<Byte>, len: UInt8)
      requires len <= |cmd|
      modifies this
      ensures sent == old(sent) + cmd[..len] && rxCounter == old(rxCounter)
    {
      var i: UInt8 := 0;
      while i < len
        invariant i <= len
        invariant sent == old(sent) + cmd[..i] && rxCounter == old(rxCounter)
      {
        assert cmd[..i + 1] == cmd[..i] + [cmd[i]];
        PutChar(cmd[i]);
        i := i + 1;
      }
    }

    /** `memset(buf, fill, MIN_BUFFER); RxCounter = 0;` */
    method BeginExchange(fill: Byte, buf: array<Byte>)
      requires buf.Length == MIN_BUFFER
      modifies this, buf
      ensures buf[..] == Received(fill, []) && rxCounter == 0 && sent == old(sent)
    {
      forall k | 0 <= k < buf.Length {
        buf[k] := fill;
      }
      rxCounter := 0;
    }

    /** The poll `while (sim_check_res(buf) != SIM_RES_OK && sim_check_res(buf) != SIM_RES_ERROR);`
        while the receive interrupt stores the modem's reply at `buf[RxCounter++]`. */
    method AwaitReply(fill: Byte, buf: array<Byte>, reply: seq<Byte>) returns (r: UInt8)
      requires buf.Length == MIN_BUFFER && ModemAnswers(fill, reply)
      requires rxCounter == 0 && buf[..] == Received(fill, [])
      modifies this, buf
      ensures Answered(fill, reply, buf, r) && sent == old(sent)
    {
      ghost var stop := PollStop(fill, reply, 0);
      assert reply[..0] == [];
      r := CheckResponse(buf);
      while r != SIM_RES_OK && r != SIM_RES_ERROR
        invariant rxCounter <= stop
        invariant buf[..] == Received(fill, reply[..rxCounter])
        invariant r == Classify(buf[..]) && sent == old(sent)
        decreases |reply| - rxCounter
      {
        ReceiveOne(fill, reply, rxCounter);
        buf[rxCounter] := reply[rxCounter];
        rxCounter := rxCounter + 1;
        r := CheckResponse(buf);
      }
    }

    /** `sim_read_sms`: AT+CMGR=<index>,<mode>. */
    method ReadSms(smsIdx: UInt8, mode: UInt8, buf: array<Byte>, reply: seq<Byte>) returns (r: UInt8)
      requires Valid() && buf.Length == MIN_BUFFER && buf !in Templates()
      requires smsIdx <= MAX_SMS && mode <= 1 ==> ModemAnswers(NUL, reply)
      modifies this, readSmsCmd, buf
      ensures Valid()
      ensures smsIdx > MAX_SMS || mode > 1 ==> r == IDX_OOR && unchanged(this, readSmsCmd, buf)
      ensures smsIdx <= MAX_SMS && mode <= 1 ==>
        readSmsCmd[..] == ReadSmsCommand(old(readSmsCmd[..]), smsIdx, mode)
        && sent == old(sent) + readSmsCmd[..] + [LF]
        && Answered(NUL, reply, buf, r)
    {
      if smsIdx > MAX_SMS || mode > 1 {
        return IDX_OOR;
      }
      BeginExchange(NUL, buf);
      readSmsCmd[LEN_CMD_READ_SMS - 4] := DigitChar(smsIdx / 10);
      readSmsCmd[LEN_CMD_READ_SMS - 3] := DigitChar(smsIdx % 10);
      readSmsCmd[LEN_CMD_READ_SMS - 1] := DigitChar(mode);
      PushCmd(readSmsCmd[..], LEN_CMD_READ_SMS);
      PutChar(LF);
      r := AwaitReply(NUL, buf, reply);
    }

    /** `sim_dele_sms`: AT+CMGD=<index>. The bound is `>=` here where reading uses `>`. */
    method DeleteSms(smsIdx: UInt8, buf: array<Byte>, reply: seq<Byte>) returns (r: UInt8)
      requires Valid() && buf.Length == MIN_BUFFER && buf !in Templates()
      requires smsIdx < MAX_SMS ==> ModemAnswers(NUL, reply)
      modifies this, deleSmsCmd, buf
      ensures Valid()
      ensures smsIdx >= MAX_SMS ==> r == IDX_OOR && unchanged(this, deleSmsCmd, buf)
      ensures smsIdx < MAX_SMS ==>
        deleSmsCmd[..] == DeleSmsCommand(old(deleSmsCmd[..]), smsIdx)
        && sent == old(sent) + deleSmsCmd[..] + [LF]
        && Answered(NUL, reply, buf, r)
    {
      if smsIdx >= MAX_SMS {
        return IDX_OOR;
      }
      BeginExchange(NUL, buf);
      deleSmsCmd[LEN_CMD_DELE_SMS - 2] := DigitChar(smsIdx / 10);
      deleSmsCmd[LEN_CMD_DELE_SMS - 1] := DigitChar(smsIdx % 10);
      PushCmd(deleSmsCmd[..], LEN_CMD_DELE_SMS);
      PutChar(LF);
      r := AwaitReply(NUL, buf, reply);
    }

    /** `sim_send_sms`: AT+CMGS="<number>", then the body closed by Ctrl-Z.
        Nothing is validated, so it never answers IDX_OOR. */
    method SendSms(phoneNumber: seq<Byte>, text: seq<Byte>, buf: array<Byte>, reply: seq<Byte>) returns (r: UInt8)
      requires Valid() && buf.Length == MIN_BUFFER && buf !in Templates()
      requires StrNCpyReadable(phoneNumber, LEN_PHONE_NUM) && LEN_PUBLISH_MES <= |text|
      requires ModemAnswers(NUL, reply)
      modifies this, sendSmsCmd, buf
      ensures Valid()
      ensures sendSmsCmd[..] == SendSmsCommand(old(sendSmsCmd[..]), phoneNumber)
      ensures sent == old(sent) + sendSmsCmd[..] + [LF] + text[..LEN_PUBLISH_MES] + [CTRL_Z]
      ensures Answered(NUL, reply, buf, r) && r != IDX_OOR
    {
      StrNCpyInto(sendSmsCmd, LEN_CMD_SEND_SMS - 1, phoneNumber, LEN_PHONE_NUM);
      BeginExchange(NUL, buf);
      PushCmd(sendSmsCmd[..], LEN_CMD_SEND_SMS + LEN_PHONE_NUM);
      PutChar(LF);
      PushCmd(text, LEN_PUBLISH_MES);
      PutChar(CTRL_Z);
      r := AwaitReply(NUL, buf, reply);
    }

    /** `sim_set_text_mode`: AT+CMGF=<mode>. The buffer is cleared to '0', not NUL. */
    method SetTextMode(mode: UInt8, buf: array<Byte>, reply: seq<Byte>) returns (r: UInt8)
      requires Valid() && buf.Length == MIN_BUFFER && buf !in Templates()
      requires mode <= 1 ==> ModemAnswers('0', reply)
      modifies this, textModeCmd, buf
      ensures Valid()
      ensures mode > 1 ==> r == IDX_OOR && unchanged(this, textModeCmd, buf)
      ensures mode <= 1 ==>
        textModeCmd[..] == TextModeCommand(old(textModeCmd[..]), mode)
        && sent == old(sent) + textModeCmd[..] + [LF]
        && Answered('0', reply, buf, r)
    {
      if mode > 1 {
        return IDX_OOR;
      }
      BeginExchange('0', buf);
      textModeCmd[LEN_CMD_TEXT_MODE - 1] := DigitChar(mode);
      PushCmd(textModeCmd[..], LEN_CMD_TEXT_MODE);
      PutChar(LF);
      r := AwaitReply('0', buf, reply);
    }

    /** `sim_set_cnmi_mode`: all five parameters are range-checked, only `mode` is sent. */
    method SetCnmiMode(mode: UInt8, mt: UInt8, bm: UInt8, ds: UInt8, bfr: UInt8,
                       buf: array<Byte>, reply: seq<Byte>) returns (r: UInt8)
      requires Valid() && buf.Length == MIN_BUFFER && buf !in Templates()
      requires mode <= 3 && mt <= 3 && bm <= 2 && ds <= 1 && bfr <= 1 ==> ModemAnswers(NUL, reply)
      modifies this, cnmiCmd, buf
      ensures Valid()
      ensures mode > 3 || mt > 3 || bm > 2 || ds > 1 || bfr > 1 ==>
        r == IDX_OOR && unchanged(this, cnmiCmd, buf)
      ensures mode <= 3 && mt <= 3 && bm <= 2 && ds <= 1 && bfr <= 1 ==>
        cnmiCmd[..] == CnmiCommand(old(cnmiCmd[..]), mode)
        && sent == old(sent) + cnmiCmd[..] + [LF]
        && Answered(NUL, reply, buf, r)
    {
      if mode > 3 || mt > 3 || bm > 2 || ds > 1 || bfr > 1 {
        return IDX_OOR;
      }
      BeginExchange(NUL, buf);
      cnmiCmd[LEN_CMD_CNMI_MODE - 9] := DigitChar(mode);
      PushCmd(cnmiCmd[..], LEN_CMD_CNMI_MODE);
      PutChar(LF);
      r := AwaitReply(NUL, buf, reply);
    }

    /** `sim_rej_in_call`: AT+GSMBUSY=<mode>, modes 0 to 2. */
    method RejectIncomingCalls(modeIdx: UInt8, buf: array<Byte>, reply: seq<Byte>) returns (r: UInt8)
      requires Valid() && buf.Length == MIN_BUFFER && buf !in Templates()
      requires modeIdx <= 2 ==> ModemAnswers(NUL, reply)
      modifies this, rejInCallCmd, buf
      ensures Valid()
      ensures modeIdx > 2 ==> r == IDX_OOR && unchanged(this, rejInCallCmd, buf)
      ensures modeIdx <= 2 ==>
        rejInCallCmd[..] == RejInCallCommand(old(rejInCallCmd[..]), modeIdx)
        && sent == old(sent) + rejInCallCmd[..] + [LF]
        && Answered(NUL, reply, buf, r)
    {
      if modeIdx > 2 {
        return IDX_OOR;
      }
      BeginExchange(NUL, buf);
      rejInCallCmd[LEN_CMD_REJ_IN_CALL - 1] := DigitChar(modeIdx);
      PushCmd(rejInCallCmd[..], LEN_CMD_REJ_IN_CALL);
      PutChar(LF);
      r := AwaitReply(NUL, buf, reply);
    }

    /** `sim_signal_strength`: AT+CSQ, then the +CSQ value parsed out of the
        settled buffer; None where the source returns no value. */
    method SignalStrength(buf: array<Byte>, reply: seq<Byte>) returns (r: Option<UInt8>)
      requires buf.Length == MIN_BUFFER && ModemAnswers(NUL, reply)
      modifies this, buf
      ensures sent == old(sent) + SIGNAL_STRENGTH_CMD + [LF]
      ensures Answered(NUL, reply, buf, Classify(buf[..]))
      ensures r == SignalResult(buf[..])
    {
      BeginExchange(NUL, buf);
      PushCmd(SIGNAL_STRENGTH_CMD, LEN_CMD_SIG_STR);
      assert SIGNAL_STRENGTH_CMD[..LEN_CMD_SIG_STR] == SIGNAL_STRENGTH_CMD;
      PutChar(LF);
      var res := AwaitReply(NUL, buf, reply);
      if res != 0 {
        r := ParseSignal(buf);
      } else {
        r := Some(SIM_RES_ERROR);
      }
    }
  }
}
