/** Constants and command templates of the SIM800L driver (Src/sim800l.c, lines 7-16).
    The values defined in sim800l.h are not part of this model: each is an
    uninterpreted constant whose type states what the driver needs of it. */
module Sim800Defs {
  import opened Bytes

  /** The driver's status codes. The model assumes that the three classifier
      outcomes are pairwise different, that IDX_OOR differs from OK and ERROR,
      and that the SMS state codes are pairwise different with NO_SMS
      differing from OK and ERROR (the data extractor returns all three). */
  datatype StatusCodes = StatusCodes(
    ok: UInt8, error: UInt8, noRes: UInt8, idxOor: UInt8,
    unread: UInt8, read: UInt8, noSms: UInt8)

  type DistinctStatusCodes = c: StatusCodes
    | c.ok != c.error && c.ok != c.noRes && c.error != c.noRes
      && c.idxOor != c.ok && c.idxOor != c.error
      && c.unread != c.read && c.unread != c.noSms && c.read != c.noSms
      && c.noSms != c.ok && c.noSms != c.error
    witness StatusCodes(1, 2, 0, 3, 4, 5, 6)

  const CODES: DistinctStatusCodes
  const SIM_RES_OK: UInt8 := CODES.ok
  const SIM_RES_ERROR: UInt8 := CODES.error
  const SIM_NO_RES: UInt8 := CODES.noRes
  const IDX_OOR: UInt8 := CODES.idxOor
  const SMS_UNREAD: UInt8 := CODES.unread
  const SMS_READ: UInt8 := CODES.read
  const NO_SMS: UInt8 := CODES.noSms

  /** Bytes of the shared response buffer that the driver clears and scans.
      At most 255 because the scans index it with `uint8_t` counters; at least
      LEN_CMD_READ_SMS (12), where the contact scan starts. */
  type BufferSize = n: nat | 12 <= n <= 255 witness 64

  const MIN_BUFFER: BufferSize

  /** Highest SMS index the modem stores. */
  const MAX_SMS: UInt8

  /** Bytes of the phone number in AT+CMGS; the send template holds
      LEN_CMD_SEND_SMS + LEN_PHONE_NUM bytes in all. */
  type PhoneNumberLength = n: nat | 1 <= n <= 21 witness 12

  const LEN_PHONE_NUM: PhoneNumberLength

  /** Bytes of message body transmitted by sim_send_sms (a `uint8_t` length). */
  const LEN_PUBLISH_MES: UInt8

  // Command templates; each array in the source is exactly as long as its literal.
  const SW_FLW_CTRL_TEMPLATE: seq<Byte> := "AT+IFC=1,1"
  const REJ_IN_CALL_TEMPLATE: seq<Byte> := "AT+GSMBUSY=x"
  const SIGNAL_STRENGTH_CMD: seq<Byte> := "AT+CSQ"
  const TEXT_MODE_TEMPLATE: seq<Byte> := "AT+CMGF=x"
  const READ_SMS_TEMPLATE: seq<Byte> := "AT+CMGR=xx,x"
  const DELE_SMS_TEMPLATE: seq<Byte> := "AT+CMGD=xx"
  const SEND_SMS_TEMPLATE: seq<Byte> := "AT+CMGS=\"+xxxxxxxxxxx\""
  const CNMI_TEMPLATE: seq<Byte> := "AT+CNMI=0,0,0,0,0"

  /** V.250 verbose result codes that end a modem response. */
  const RES_OK: seq<Byte> := "\r\nOK\r\n"
  const RES_ERR: seq<Byte> := "\r\nERROR\r\n"

  const LEN_CMD_REJ_IN_CALL: nat := |REJ_IN_CALL_TEMPLATE|
  const LEN_CMD_SIG_STR: nat := |SIGNAL_STRENGTH_CMD|
  const LEN_CMD_TEXT_MODE: nat := |TEXT_MODE_TEMPLATE|
  const LEN_CMD_READ_SMS: nat := |READ_SMS_TEMPLATE|
  const LEN_CMD_DELE_SMS: nat := |DELE_SMS_TEMPLATE|
  const LEN_CMD_SEND_SMS: nat := |SEND_SMS_TEMPLATE| - LEN_PHONE_NUM
  const LEN_CMD_CNMI_MODE: nat := |CNMI_TEMPLATE|
  const LEN_CMD_RES_OK: nat := |RES_OK|
  const LEN_CMD_RES_ERR: nat := |RES_ERR|

  /** True when `t` and `u` have the same length and agree at every position outside `holes`. */
  predicate SameOutside(t: seq<Byte>, u: seq<Byte>, holes: set<nat>)
  {
    |t| == |u| && forall k :: 0 <= k < |t| && k !in holes ==> t[k] == u[k]
  }

  // Placeholder positions each operation rewrites.
  const READ_SMS_HOLES: set<nat> := {LEN_CMD_READ_SMS - 4, LEN_CMD_READ_SMS - 3, LEN_CMD_READ_SMS - 1}
  const DELE_SMS_HOLES: set<nat> := {LEN_CMD_DELE_SMS - 2, LEN_CMD_DELE_SMS - 1}
  const TEXT_MODE_HOLES: set<nat> := {LEN_CMD_TEXT_MODE - 1}
  const REJ_IN_CALL_HOLES: set<nat> := {LEN_CMD_REJ_IN_CALL - 1}
  const CNMI_HOLES: set<nat> := {LEN_CMD_CNMI_MODE - 9}
  const SEND_SMS_HOLES: set<nat> := set k | LEN_CMD_SEND_SMS - 1 <= k < LEN_CMD_SEND_SMS - 1 + LEN_PHONE_NUM

  /** Read-SMS template after `sim_read_sms` has written the index digits and the mode digit. */
  function ReadSmsCommand(t: seq<Byte>, smsIdx: UInt8, mode: UInt8): (c: seq<Byte>)
    requires |t| == LEN_CMD_READ_SMS
    ensures SameOutside(c, t, READ_SMS_HOLES)
  {
    t[LEN_CMD_READ_SMS - 4 := DigitChar(smsIdx / 10)]
     [LEN_CMD_READ_SMS - 3 := DigitChar(smsIdx % 10)]
     [LEN_CMD_READ_SMS - 1 := DigitChar(mode)]
  }

  /** Delete-SMS template after `sim_dele_sms` has written the two index digits. */
  function DeleSmsCommand(t: seq<Byte>, smsIdx: UInt8): (c: seq<Byte>)
    requires |t| == LEN_CMD_DELE_SMS
    ensures SameOutside(c, t, DELE_SMS_HOLES)
  {
    t[LEN_CMD_DELE_SMS - 2 := DigitChar(smsIdx / 10)]
     [LEN_CMD_DELE_SMS - 1 := DigitChar(smsIdx % 10)]
  }

  /** Text-mode template after `sim_set_text_mode` has written the mode digit. */
  function TextModeCommand(t: seq<Byte>, mode: UInt8): (c: seq<Byte>)
    requires |t| == LEN_CMD_TEXT_MODE
    ensures SameOutside(c, t, TEXT_MODE_HOLES)
  {
    t[LEN_CMD_TEXT_MODE - 1 := DigitChar(mode)]
  }

  /** Call-rejection template after `sim_rej_in_call` has written the mode digit. */
  function RejInCallCommand(t: seq<Byte>, mode: UInt8): (c: seq<Byte>)
    requires |t| == LEN_CMD_REJ_IN_CALL
    ensures SameOutside(c, t, REJ_IN_CALL_HOLES)
  {
    t[LEN_CMD_REJ_IN_CALL - 1 := DigitChar(mode)]
  }

  /** CNMI template after `sim_set_cnmi_mode`: only the first parameter is ever written. */
  function CnmiCommand(t: seq<Byte>, mode: UInt8): (c: seq<Byte>)
    requires |t| == LEN_CMD_CNMI_MODE
    ensures SameOutside(c, t, CNMI_HOLES)
  {
    t[LEN_CMD_CNMI_MODE - 9 := DigitChar(mode)]
  }

  /** Send template after `sim_send_sms` has `strncpy`-ed the phone number into it. */
  function SendSmsCommand(t: seq<Byte>, phoneNumber: seq<Byte>): (c: seq<Byte>)
    requires |t| == LEN_CMD_SEND_SMS + LEN_PHONE_NUM
    requires StrNCpyReadable(phoneNumber, LEN_PHONE_NUM)
    ensures SameOutside(c, t, SEND_SMS_HOLES)
    ensures c[LEN_CMD_SEND_SMS - 1 .. LEN_CMD_SEND_SMS - 1 + LEN_PHONE_NUM] == StrNCpy(phoneNumber, LEN_PHONE_NUM)
  {
    t[..LEN_CMD_SEND_SMS - 1] + StrNCpy(phoneNumber, LEN_PHONE_NUM) + t[LEN_CMD_SEND_SMS - 1 + LEN_PHONE_NUM..]
  }

  // What each builder makes of any template its earlier calls left behind:
  // the command depends on the arguments alone, and the digits decode back.

  lemma ReadSmsCommandSpelled(t: seq<Byte>, smsIdx: UInt8, mode: UInt8)
    requires SameOutside(t, READ_SMS_TEMPLATE, READ_SMS_HOLES)
    ensures var c := ReadSmsCommand(t, smsIdx, mode);
      c == "AT+CMGR=" + [DigitChar(smsIdx / 10), DigitChar(smsIdx % 10)] + "," + [DigitChar(mode)]
      && (smsIdx < 100 ==> 10 * (c[8] as int - '0' as int) + (c[9] as int - '0' as int) == smsIdx)
      && (mode < 10 ==> c[11] as int - '0' as int == mode)
  {
    var c := ReadSmsCommand(t, smsIdx, mode);
    forall k | 0 <= k < 8 || k == 10
      ensures c[k] == READ_SMS_TEMPLATE[k]
    {
      assert k !in READ_SMS_HOLES;
    }
  }

  lemma DeleSmsCommandSpelled(t: seq<Byte>, smsIdx: UInt8)
    requires SameOutside(t, DELE_SMS_TEMPLATE, DELE_SMS_HOLES)
    ensures var c := DeleSmsCommand(t, smsIdx);
      c == "AT+CMGD=" + [DigitChar(smsIdx / 10), DigitChar(smsIdx % 10)]
      && (smsIdx < 100 ==> 10 * (c[8] as int - '0' as int) + (c[9] as int - '0' as int) == smsIdx)
  {
    var c := DeleSmsCommand(t, smsIdx);
    forall k | 0 <= k < 8
      ensures c[k] == DELE_SMS_TEMPLATE[k]
    {
      assert k !in DELE_SMS_HOLES;
    }
  }

  lemma TextModeCommandSpelled(t: seq<Byte>, mode: UInt8)
    requires SameOutside(t, TEXT_MODE_TEMPLATE, TEXT_MODE_HOLES)
    ensures var c := TextModeCommand(t, mode);
      c == "AT+CMGF=" + [DigitChar(mode)] && (mode < 10 ==> c[8] as int - '0' as int == mode)
  {
    var c := TextModeCommand(t, mode);
    forall k | 0 <= k < 8
      ensures c[k] == TEXT_MODE_TEMPLATE[k]
    {
      assert k !in TEXT_MODE_HOLES;
    }
  }

  lemma RejInCallCommandSpelled(t: seq<Byte>, mode: UInt8)
    requires SameOutside(t, REJ_IN_CALL_TEMPLATE, REJ_IN_CALL_HOLES)
    ensures var c := RejInCallCommand(t, mode);
      c == "AT+GSMBUSY=" + [DigitChar(mode)] && (mode < 10 ==> c[11] as int - '0' as int == mode)
  {
    var c := RejInCallCommand(t, mode);
    forall k | 0 <= k < 11
      ensures c[k] == REJ_IN_CALL_TEMPLATE[k]
    {
      assert k !in REJ_IN_CALL_HOLES;
    }
  }

  /** `mt`, `bm`, `ds` and `bfr` never reach the modem: they stay 0 in every
      AT+CNMI the driver sends. */
  lemma CnmiCommandSpelled(t: seq<Byte>, mode: UInt8)
    requires SameOutside(t, CNMI_TEMPLATE, CNMI_HOLES)
    ensures var c := CnmiCommand(t, mode);
      c == "AT+CNMI=" + [DigitChar(mode)] + ",0,0,0,0" && (mode < 10 ==> c[8] as int - '0' as int == mode)
  {
    var c := CnmiCommand(t, mode);
    forall k | 0 <= k < |c| && k != 8
      ensures c[k] == CNMI_TEMPLATE[k]
    {
      assert k !in CNMI_HOLES;
    }
  }

  /** The number lands between the template's prefix and its closing quote,
      which no number length disturbs; with 12-byte numbers the prefix is `AT+CMGS="`. */
  lemma SendSmsCommandSpelled(t: seq<Byte>, phoneNumber: seq<Byte>)
    requires SameOutside(t, SEND_SMS_TEMPLATE, SEND_SMS_HOLES)
    requires StrNCpyReadable(phoneNumber, LEN_PHONE_NUM)
    ensures var c := SendSmsCommand(t, phoneNumber);
      c == SEND_SMS_TEMPLATE[..LEN_CMD_SEND_SMS - 1] + StrNCpy(phoneNumber, LEN_PHONE_NUM) + "\""
    ensures LEN_PHONE_NUM == 12 ==> SEND_SMS_TEMPLATE[..LEN_CMD_SEND_SMS - 1] == "AT+CMGS=\""
  {
    var off := LEN_CMD_SEND_SMS - 1;
    forall k | 0 <= k < off
      ensures t[k] == SEND_SMS_TEMPLATE[k]
    {
      assert k !in SEND_SMS_HOLES;
    }
    assert 21 !in SEND_SMS_HOLES;
    assert t[..off] == SEND_SMS_TEMPLATE[..off];
    assert t[off + LEN_PHONE_NUM..] == "\"";
  }

  /** Reading SMS 5 in mode 0 sends "AT+CMGR=05,0". */
  lemma ReadSmsExample()
    ensures ReadSmsCommand(READ_SMS_TEMPLATE, 5, 0) == "AT+CMGR=05,0"
  {
    ReadSmsCommandSpelled(READ_SMS_TEMPLATE, 5, 0);
    assert DigitChar(0) == '0' && DigitChar(5) == '5';
  }

  /** A number of exactly LEN_PHONE_NUM bytes without NUL lands unaltered
      between the template's prefix and its closing quote. */
  lemma SendSmsWholeNumber(number: seq<Byte>)
    requires |number| == LEN_PHONE_NUM && NUL !in number
    ensures SendSmsCommand(SEND_SMS_TEMPLATE, number)
            == SEND_SMS_TEMPLATE[..LEN_CMD_SEND_SMS - 1] + number + "\""
  {
    StrNCpyVerbatim(number);
    SendSmsCommandSpelled(SEND_SMS_TEMPLATE, number);
  }

  /** With 12-byte numbers the send command embeds "+15551234567" whole and
      keeps the template's length. */
  lemma SendSmsExample()
    requires LEN_PHONE_NUM == 12
    ensures SendSmsCommand(SEND_SMS_TEMPLATE, "+15551234567") == "AT+CMGS=\"+15551234567\""
  {
    var number: seq<Byte> := "+15551234567";
    var prefix: seq<Byte> := "AT+CMGS=\"";
    SpellOut(prefix, number);
    SendSmsWholeNumber(number);
  }

  lemma SpellOut(prefix: seq<Byte>, number: seq<Byte>)
    requires LEN_PHONE_NUM == 12
    requires prefix == "AT+CMGS=\"" && number == "+15551234567"
    ensures prefix + number + "\"" == "AT+CMGS=\"+15551234567\""
    ensures NUL !in number && SEND_SMS_TEMPLATE[..LEN_CMD_SEND_SMS - 1] == prefix
  {
  }
}
