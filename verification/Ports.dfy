/** Port numbers as text: every spelling of one number is one claim. */
module Ports {
  import opened Wrappers
  import opened Config

  const MAX_INT64 := 0x7FFF_FFFF_FFFF_FFFF

  predicate IsDigit(c: char) {
    '0' <= c <= '9'
  }

  function DigitValue(c: char): nat
    requires IsDigit(c)
  {
    c as int - '0' as int
  }

  function DigitChar(d: nat): (c: char)
    requires d < 10
    ensures IsDigit(c) && DigitValue(c) == d
  {
    ('0' as int + d) as char
  }

  function ParseDigits(s: string): Option<nat> {
    if s == [] then None
    else
      var last := s[|s| - 1];
      if !IsDigit(last) then None
      else if |s| == 1 then Some(DigitValue(last))
      else
        var front := ParseDigits(s[..|s| - 1]);
        if front.None? then None else Some(10 * front.value + DigitValue(last))
  }

  /** strconv.Atoi: an optional sign, digits, and a value that fits 64 bits. */
  function Atoi(s: string): Option<int> {
    var signed := s != [] && (s[0] == '-' || s[0] == '+');
    var magnitude := ParseDigits(if signed then s[1..] else s);
    if magnitude.None? then None
    else
      var n: int := if signed && s[0] == '-' then -(magnitude.value as int) else magnitude.value;
      if -MAX_INT64 - 1 <= n <= MAX_INT64 then Some(n) else None
  }

  function Digits(n: nat): (s: string)
    ensures s != [] && IsDigit(s[0])
  {
    if n < 10 then [DigitChar(n)] else Digits(n / 10) + [DigitChar(n % 10)]
  }

  function Itoa(n: int): string {
    if n < 0 then "-" + Digits(-n) else Digits(n)
  }

  function CanonicalPort(raw: string): string {
    var port := Atoi(raw);
    if port.None? then raw else Itoa(port.value)
  }

  /** Only the two push kinds listen; a missing port is the one they would listen on. */
  function ConnectorPort(cfg: StreamSourceConfig): string {
    if cfg.kind == "webhook" then
      if cfg.webhook.Some? && cfg.webhook.value.port != "" then CanonicalPort(cfg.webhook.value.port) else "8081"
    else if cfg.kind == "grpc" then
      if cfg.grpc.Some? && cfg.grpc.value.port != "" then CanonicalPort(cfg.grpc.value.port) else "50051"
    else ""
  }

  lemma {:induction false} DigitsParse(n: nat)
    ensures ParseDigits(Digits(n)) == Some(n)
  {
    if n >= 10 {
      DigitsParse(n / 10);
      var s := Digits(n);
      assert s[..|s| - 1] == Digits(n / 10);
    }
  }

  lemma AtoiNegative(digits: string, n: nat)
    requires ParseDigits(digits) == Some(n) && n <= MAX_INT64 + 1
    ensures Atoi("-" + digits) == Some(-(n as int))
  {
    assert ("-" + digits)[1..] == digits;
  }

  lemma AtoiPlain(digits: string, n: nat)
    requires digits != [] && IsDigit(digits[0]) && ParseDigits(digits) == Some(n) && n <= MAX_INT64
    ensures Atoi(digits) == Some(n as int)
  {
  }

  /** Printing and reading back is the identity on 64-bit integers. */
  lemma ItoaAtoi(n: int)
    requires -MAX_INT64 - 1 <= n <= MAX_INT64
    ensures Atoi(Itoa(n)) == Some(n)
  {
    if n < 0 {
      DigitsParse(-n);
      AtoiNegative(Digits(-n), -n);
    } else {
      DigitsParse(n);
      AtoiPlain(Digits(n), n);
    }
  }

  lemma {:induction false} LeadingZero(digits: string)
    requires digits != "" && ParseDigits(digits).Some?
    ensures ParseDigits("0" + digits) == ParseDigits(digits)
  {
    var all := "0" + digits;
    if |digits| == 1 {
      assert all[..1] == "0";
    } else {
      var front := digits[..|digits| - 1];
      LeadingZero(front);
      assert all[..|all| - 1] == "0" + front;
    }
  }

  /** A number may be written with a sign and with leading zeros; printed, it has a sign only
      if it is negative. */
  lemma Spellings(n: nat)
    requires n <= MAX_INT64
    ensures Atoi("+" + Digits(n)) == Atoi("0" + Digits(n)) == Some(n as int)
    ensures Atoi("-" + Digits(n)) == Some(-(n as int))
    ensures Itoa(n) == Digits(n) && (n > 0 ==> Itoa(-(n as int)) == "-" + Digits(n))
  {
    DigitsParse(n);
    LeadingZero(Digits(n));
    AtoiPlain("0" + Digits(n), n);
    AtoiNegative(Digits(n), n);
    assert ("+" + Digits(n))[1..] == Digits(n);
  }

  /** Two texts are one claim if and only if they spell one number, or are one text that
      spells none. */
  lemma CanonicalIffSameNumber(a: string, b: string)
    ensures CanonicalPort(a) == CanonicalPort(b) <==> Atoi(a) == Atoi(b) && (Atoi(a).None? ==> a == b)
  {
    if Atoi(a).Some? {
      ItoaAtoi(Atoi(a).value);
    }
    if Atoi(b).Some? {
      ItoaAtoi(Atoi(b).value);
    }
  }

  /** Reading a canonical port gives the number of the text it came from. */
  lemma CanonicalKeepsNumber(raw: string)
    ensures Atoi(CanonicalPort(raw)) == Atoi(raw)
  {
    if Atoi(raw).Some? {
      ItoaAtoi(Atoi(raw).value);
    }
  }

  // ---- the port a stream listens on

  /** The port written in the block of the stream's kind, if there is a block and it has one. */
  function Written(cfg: StreamSourceConfig): string {
    match cfg.kind
    case "webhook" => if cfg.webhook == None then "" else cfg.webhook.value.port
    case "grpc" => if cfg.grpc == None then "" else cfg.grpc.value.port
    case _ => ""
  }

  /** The number the stream listens on: the one written, or the one its kind has. */
  predicate Listens(cfg: StreamSourceConfig, number: int) {
    || (cfg.kind == "webhook" && Written(cfg) == "" && number == 8081)
    || (cfg.kind == "grpc" && Written(cfg) == "" && number == 50051)
    || (cfg.kind in {"webhook", "grpc"} && Written(cfg) != "" && Atoi(Written(cfg)) == Some(number))
  }

  lemma CanonicalNotEmpty(raw: string)
    requires raw != ""
    ensures CanonicalPort(raw) != ""
  {
  }

  lemma DefaultNumbers()
    ensures Atoi("8081") == Some(8081) && Atoi("50051") == Some(50051)
  {
    DefaultText();
    ItoaAtoi(8081);
    ItoaAtoi(50051);
  }

  lemma DefaultText()
    ensures Itoa(8081) == "8081" && Itoa(50051) == "50051"
  {
    assert Digits(808) == "808" && Digits(8081) == "8081";
    assert Digits(500) == "500" && Digits(5005) == "5005" && Digits(50051) == "50051";
  }

  /** A stream claims a port if and only if it is a webhook or gRPC stream; the claim spells the
      number it listens on, and is the text written if that is no number. */
  lemma ClaimIsListened(cfg: StreamSourceConfig)
    ensures ConnectorPort(cfg) != "" <==> cfg.kind in {"webhook", "grpc"}
    ensures forall number :: Listens(cfg, number) <==>
      cfg.kind in {"webhook", "grpc"} && Atoi(ConnectorPort(cfg)) == Some(number)
    ensures cfg.kind in {"webhook", "grpc"} && (forall number :: !Listens(cfg, number)) ==>
      ConnectorPort(cfg) == Written(cfg)
  {
    DefaultNumbers();
    if Written(cfg) != "" {
      CanonicalNotEmpty(Written(cfg));
      CanonicalKeepsNumber(Written(cfg));
      if Atoi(Written(cfg)).Some? {
        assert Listens(cfg, Atoi(Written(cfg)).value);
      }
    }
  }

  /** One number is one claim. */
  lemma OneClaimPerNumber(a: StreamSourceConfig, b: StreamSourceConfig, number: int)
    requires Listens(a, number) && Listens(b, number)
    ensures ConnectorPort(a) == ConnectorPort(b) == Itoa(number)
  {
    ListenedClaim(a, number);
    ListenedClaim(b, number);
  }

  lemma ListenedClaim(cfg: StreamSourceConfig, number: int)
    requires Listens(cfg, number)
    ensures ConnectorPort(cfg) == Itoa(number)
  {
    DefaultText();
  }
}
