/** Content information as string metadata, and back. */
module ContentInfo {
  import opened Basics

  // ---- decimal numbers of 64 bits ----

  const MAX: int := 0x8000_0000_0000_0000

  predicate IsInt64(n: int) { -MAX <= n < MAX }

  function Digit(d: nat): char
    requires d < 10
  {
    ('0' as int + d) as char
  }

  predicate AllDigits(s: string) { forall i | 0 <= i < |s| :: '0' <= s[i] <= '9' }

  function Decimal(n: nat): string {
    if n < 10 then [Digit(n)] else Decimal(n / 10) + [Digit(n % 10)]
  }

  function ValueOf(s: string): nat
    requires AllDigits(s)
  {
    if s == "" then 0 else ValueOf(s[..|s| - 1]) * 10 + (s[|s| - 1] as int - '0' as int)
  }

  /** "%d". */
  function FormatInt(n: int): string {
    if n < 0 then "-" + Decimal(-n) else Decimal(n)
  }

  /** `ParseInt` in base 10 with 64 bits: a sign is allowed, anything but digits after it is not. */
  function ParseInt(s: string): Option<int> {
    var signed := s != "" && (s[0] == '-' || s[0] == '+');
    var digits := if signed then s[1..] else s;
    if digits == "" || !AllDigits(digits) then None
    else
      var value: int := ValueOf(digits);
      var n := if signed && s[0] == '-' then -value else value;
      if IsInt64(n) then Some(n) else None
  }

  /** The digits of the number, without leading zeros. */
  lemma {:induction false} DecimalValue(n: nat)
    ensures Decimal(n) != "" && AllDigits(Decimal(n)) && ValueOf(Decimal(n)) == n
    ensures Decimal(n)[0] == '0' <==> n == 0
  {
    if n >= 10 {
      DecimalValue(n / 10);
      assert (Decimal(n / 10) + [Digit(n % 10)])[..|Decimal(n)| - 1] == Decimal(n / 10);
    }
  }

  function Zeros(k: nat): string { seq(k, _ => '0') }

  lemma {:induction false} ZerosAdd(k: nat, s: string)
    requires AllDigits(s)
    ensures AllDigits(Zeros(k) + s) && ValueOf(Zeros(k) + s) == ValueOf(s)
    decreases k + |s|
  {
    var all := Zeros(k) + s;
    if s != "" {
      var n := |s| - 1;
      ZerosAdd(k, s[..n]);
      assert all[..|all| - 1] == Zeros(k) + s[..n];
    } else if k > 0 {
      ZerosAdd(k - 1, "");
      assert all == Zeros(k) && all[..k - 1] == Zeros(k - 1) + "";
    }
  }

  /** Digits are the numeral of their value behind some zeros. */
  lemma {:induction false} DigitsAreNumeral(s: string) returns (k: nat)
    requires s != "" && AllDigits(s)
    ensures s == Zeros(k) + Decimal(ValueOf(s))
  {
    var n := |s| - 1;
    var d := s[n] as int - '0' as int;
    assert s == s[..n] + [Digit(d)];
    k := 0;
    if n > 0 {
      k := DigitsAreNumeral(s[..n]);
      if ValueOf(s[..n]) == 0 {
        assert Zeros(k) + "0" == Zeros(k + 1);
        k := k + 1;
      } else {
        assert ValueOf(s) / 10 == ValueOf(s[..n]) && ValueOf(s) % 10 == d;
      }
    }
  }

  /** A number survives exactly when it has 64 bits. */
  lemma SizeRoundTrip(n: int)
    ensures ParseInt(FormatInt(n)) == if IsInt64(n) then Some(n) else None
  {
    hide Decimal, ValueOf;
    if n < 0 {
      DecimalValue(-n);
      assert FormatInt(n)[1..] == Decimal(-n);
    } else {
      DecimalValue(n);
    }
  }

  /** A minus for a negative number, a plus or nothing for a positive one, and any of them for zero. */
  predicate SignFits(sign: string, n: int) {
    if sign == "-" then n <= 0 else (sign == "" || sign == "+") && n >= 0
  }

  /** The text is the number: a sign, any zeros, and the numeral. */
  ghost predicate IsNumber(s: string, n: int) {
    exists sign: string, k: nat ::
      SignFits(sign, n) && s == sign + (Zeros(k) + Decimal(if n < 0 then -n else n))
  }

  lemma SignedParse(sign: string, digits: string)
    requires digits != "" && AllDigits(digits) && (sign == "" || sign == "+" || sign == "-")
    ensures ParseInt(sign + digits) ==
            var value: int := ValueOf(digits);
            var n := if sign == "-" then -value else value;
            if IsInt64(n) then Some(n) else None
  {
    hide ValueOf, IsInt64;
    assert (sign + digits)[|sign|..] == digits;
    assert sign == "" ==> sign + digits == digits;
  }

  lemma NumbersParse(s: string, n: int)
    requires IsNumber(s, n)
    ensures ParseInt(s) == if IsInt64(n) then Some(n) else None
  {
    hide Decimal, Zeros, ParseInt, IsInt64;
    var sign: string, k: nat :| SignFits(sign, n) && s == sign + (Zeros(k) + Decimal(if n < 0 then -n else n));
    NumberParses(sign, k, n);
  }

  lemma NumberParses(sign: string, k: nat, n: int)
    requires SignFits(sign, n)
    ensures ParseInt(sign + (Zeros(k) + Decimal(if n < 0 then -n else n))) == if IsInt64(n) then Some(n) else None
  {
    hide Decimal, Zeros, ParseInt, ValueOf, AllDigits, IsInt64;
    var value: nat := if n < 0 then -n else n;
    DecimalValue(value);
    ZerosAdd(k, Decimal(value));
    SignedParse(sign, Zeros(k) + Decimal(value));
  }

  lemma ParsedAreNumbers(s: string)
    ensures ParseInt(s).Some? ==> IsNumber(s, ParseInt(s).value)
  {
    if ParseInt(s).Some? {
      var sign := if s[0] == '-' || s[0] == '+' then s[..1] else "";
      var digits := s[|sign|..];
      assert s == sign + digits && digits != "" && AllDigits(digits);
      hide ParseInt, Decimal, Zeros;
      SignedParse(sign, digits);
      var k := DigitsAreNumeral(digits);
      var n := ParseInt(s).value;
      assert SignFits(sign, n) && s == sign + (Zeros(k) + Decimal(if n < 0 then -n else n));
    }
  }

  /** Which texts are parsed, and to what: the numbers of at most 64 bits, with a sign and zeros in front. */
  lemma ParseIntIff(s: string, n: int)
    ensures ParseInt(s) == Some(n) <==> IsInt64(n) && IsNumber(s, n)
  {
    hide IsNumber, IsInt64, ParseInt;
    ParsedAreNumbers(s);
    if IsNumber(s, n) {
      NumbersParse(s, n);
    }
    ParsedFits(s);
  }

  lemma ParsedFits(s: string)
    ensures ParseInt(s).Some? ==> IsInt64(ParseInt(s).value)
  {
  }

  // ---- content information ----

  /** An instant: seconds since some epoch and nanoseconds of the second. */
  datatype Time = Time(seconds: int, nanos: nat)

  datatype Info = Info(digest: string, size: int, created: Time, updated: Time, labels: map<string, string>)

  type Metadata = map<string, string>

  datatype Transfer = Transfer(tag: string, metadata: Metadata)

  datatype Error = BadSize | BadCreated | BadUpdated | Remote(message: string)

  datatype Result = Ok(info: Info) | Err(error: Error)

  /** The date format of section 5.6 of RFC 3339, and the zero time. */
  datatype Dates = Dates(format: Time -> string, parse: string -> Option<Time>, zero: Time)

  function Truncated(t: Time): Time { t.(nanos := 0) }

  /** What the format promises for a time it can express. */
  ghost predicate Expresses(d: Dates, t: Time) {
    d.format(t) != "" && d.parse(d.format(t)) == Some(Truncated(t))
  }

  const PREFIX: string := "__label:"

  // ---- encoding ----

  function FixedFields(d: Dates, info: Info): Metadata {
    map["os" := "linux", "size" := FormatInt(info.size), "created_at" := d.format(info.created),
        "updated_at" := d.format(info.updated)]
  }

  /** `metadata` is `fixed` and each of the labels under the prefix. */
  ghost predicate WithLabels(fixed: Metadata, labels: map<string, string>, metadata: Metadata) {
    && (forall k | k in metadata :: k in fixed.Keys || (PREFIX <= k && k[|PREFIX|..] in labels))
    && (forall k | k in fixed && !(PREFIX <= k) :: k in metadata && metadata[k] == fixed[k])
    && (forall k | k in labels :: PREFIX + k in metadata && metadata[PREFIX + k] == labels[k])
  }

  lemma PrefixedKey(k: string)
    ensures PREFIX <= PREFIX + k && (PREFIX + k)[|PREFIX|..] == k
  {
  }

  /** `TransformFromContentInfo`; the labels come in any order. */
  method Encode(d: Dates, info: Info) returns (t: Transfer)
    ensures t.tag == info.digest
    ensures WithLabels(FixedFields(d, info), info.labels, t.metadata)
    ensures t.metadata.Keys ==
            {"os", "size", "created_at", "updated_at"} + set k | k in info.labels :: "__label:" + k
    ensures t.metadata["os"] == "linux" && t.metadata["size"] == FormatInt(info.size)
    ensures t.metadata["created_at"] == d.format(info.created) && t.metadata["updated_at"] == d.format(info.updated)
    ensures forall k | k in info.labels :: t.metadata["__label:" + k] == info.labels[k]
  {
    var metadata := FixedFields(d, info);
    var rest := info.labels.Keys;
    ghost var done: map<string, string> := map[];
    while rest != {}
      invariant rest !! done.Keys && rest + done.Keys == info.labels.Keys
      invariant forall k | k in done :: done[k] == info.labels[k]
      invariant WithLabels(FixedFields(d, info), done, metadata)
    {
      var k :| k in rest;
      PrefixedKey(k);
      LabelAdded(FixedFields(d, info), done, metadata, k, info.labels[k]);
      metadata := metadata[PREFIX + k := info.labels[k]];
      done := done[k := info.labels[k]];
      rest := rest - {k};
    }
    assert done == info.labels;
    EncodedKeys(d, info, metadata);
    t := Transfer(info.digest, metadata);
  }

  lemma EncodedKeys(d: Dates, info: Info, metadata: Metadata)
    requires WithLabels(FixedFields(d, info), info.labels, metadata)
    ensures metadata.Keys == {"os", "size", "created_at", "updated_at"} + set k | k in info.labels :: "__label:" + k
    ensures forall k | k in FixedFields(d, info) :: metadata[k] == FixedFields(d, info)[k]
  {
    hide FormatInt;
    assert PREFIX[0] == '_';
    var fixed := FixedFields(d, info);
    assert fixed.Keys == {"os", "size", "created_at", "updated_at"};
    forall k | k in metadata && k !in fixed ensures k in set j | j in info.labels :: "__label:" + j {
      assert k == "__label:" + k[|PREFIX|..];
    }
  }

  lemma LabelAdded(fixed: Metadata, labels: map<string, string>, metadata: Metadata, k: string, v: string)
    requires WithLabels(fixed, labels, metadata) && k !in labels
    ensures WithLabels(fixed, labels[k := v], metadata[PREFIX + k := v])
  {
    PrefixedKey(k);
    forall j | j in labels ensures PREFIX + j in metadata && PREFIX + j != PREFIX + k {
      PrefixedKey(j);
    }
  }

  // ---- decoding ----

  /** `labels` are the metadata under the prefix. */
  ghost predicate AreLabels(metadata: Metadata, labels: map<string, string>) {
    forall k :: if PREFIX + k in metadata then k in labels && labels[k] == metadata[PREFIX + k] else k !in labels
  }

  /** `TransformLabels`. */
  method DecodeLabels(metadata: Metadata) returns (labels: map<string, string>)
    ensures AreLabels(metadata, labels)
  {
    labels := map[];
    var rest := metadata.Keys;
    while rest != {}
      invariant rest <= metadata.Keys
      invariant forall k :: if PREFIX + k in metadata.Keys - rest then k in labels
          && labels[k] == metadata[PREFIX + k] else k !in labels
    {
      var key :| key in rest;
      if PREFIX <= key {
        var k := key[|PREFIX|..];
        assert key == PREFIX + k;
        forall j ensures PREFIX + j == key ==> j == k {
          PrefixedKey(j);
        }
        labels := labels[k := metadata[key]];
      } else {
        forall j ensures PREFIX + j != key {
          PrefixedKey(j);
        }
      }
      rest := rest - {key};
    }
  }

  function Field(metadata: Metadata, key: string): string { if key in metadata then metadata[key] else "" }

  function DecodeTime(d: Dates, text: string): Option<Time> { if text == "" then Some(d.zero) else d.parse(text) }

  /** What a transfer decodes to, the labels apart. */
  function DecodeFields(d: Dates, t: Transfer): Result {
    var size, created, updated := ParseInt(Field(t.metadata, "size")), DecodeTime(d, Field(t.metadata, "created_at")),
                                  DecodeTime(d, Field(t.metadata, "updated_at"));
    if size == None then Err(BadSize)
    else if created == None then Err(BadCreated)
    else if updated == None then Err(BadUpdated)
    else Ok(Info(t.tag, size.value, created.value, updated.value, map[]))
  }

  ghost predicate Decodes(d: Dates, t: Transfer, r: Result) {
    match r
    case Err(_) => DecodeFields(d, t) == r
    case Ok(info) => DecodeFields(d, t) == Ok(info.(labels := map[])) && AreLabels(t.metadata, info.labels)
  }

  /** The time under the key; none, or an empty text, is the zero time. */
  ghost predicate ReadsTime(d: Dates, metadata: Metadata, key: string, time: Time) {
    if key in metadata && metadata[key] != "" then d.parse(metadata[key]) == Some(time) else time == d.zero
  }

  ghost predicate ReadsSize(metadata: Metadata, n: int) {
    "size" in metadata && ParseInt(metadata["size"]) == Some(n)
  }

  ghost predicate HasSize(metadata: Metadata) { exists n :: ReadsSize(metadata, n) }

  ghost predicate HasTime(d: Dates, metadata: Metadata, key: string) {
    exists time :: ReadsTime(d, metadata, key, time)
  }

  /** What decoding gives, from the metadata alone: the fields and labels that are there, or the first of
      size, creation and update that cannot be read. */
  lemma DecodesIff(d: Dates, t: Transfer, r: Result)
    ensures Decodes(d, t, r) <==>
            match r
            case Ok(info) =>
              && info.digest == t.tag && ReadsSize(t.metadata, info.size) && AreLabels(t.metadata, info.labels)
              && ReadsTime(d, t.metadata, "created_at", info.created)
              && ReadsTime(d, t.metadata, "updated_at", info.updated)
            case Err(BadSize) => !HasSize(t.metadata)
            case Err(BadCreated) => HasSize(t.metadata) && !HasTime(d, t.metadata, "created_at")
            case Err(BadUpdated) =>
              && HasSize(t.metadata) && HasTime(d, t.metadata, "created_at")
              && !HasTime(d, t.metadata, "updated_at")
            case Err(Remote(_)) => false
  {
    SizeRead(t.metadata);
    TimeRead(d, t.metadata, "created_at");
    TimeRead(d, t.metadata, "updated_at");
    hide ParseInt, AreLabels, HasSize, HasTime, ReadsSize, ReadsTime, DecodeTime, Field;
  }

  lemma SizeRead(metadata: Metadata)
    ensures HasSize(metadata) <==> ParseInt(Field(metadata, "size")).Some?
    ensures forall n :: ReadsSize(metadata, n) <==> ParseInt(Field(metadata, "size")) == Some(n)
  {
    EmptyIsNoNumber();
    hide ParseInt;
    if ParseInt(Field(metadata, "size")).Some? {
      assert ReadsSize(metadata, ParseInt(metadata["size"]).value);
    }
  }

  lemma TimeRead(d: Dates, metadata: Metadata, key: string)
    ensures HasTime(d, metadata, key) <==> DecodeTime(d, Field(metadata, key)).Some?
    ensures forall time :: ReadsTime(d, metadata, key, time) <==> DecodeTime(d, Field(metadata, key)) == Some(time)
  {
    var read := DecodeTime(d, Field(metadata, key));
    assert read.Some? ==> ReadsTime(d, metadata, key, read.value);
  }

  lemma EmptyIsNoNumber()
    ensures ParseInt("") == None
  {
  }

  /** `TransformIntoContentInfo`. */
  method Decode(d: Dates, t: Transfer) returns (r: Result)
    ensures Decodes(d, t, r)
  {
    r := DecodeFields(d, t);
    if r.Ok? {
      var labels := DecodeLabels(t.metadata);
      r := Ok(r.info.(labels := labels));
    }
  }

  // ---- round trip ----

  /** Keys that decoding does not look at. */
  predicate Neutral(k: string) {
    k != "size" && k != "created_at" && k != "updated_at" && k != "error" && !(PREFIX <= k)
  }

  /** Adding or overwriting neutral keys changes nothing. */
  lemma NeutralKeysDoNotMatter(d: Dates, t: Transfer, extra: Metadata, r: Result)
    requires forall k | k in extra :: Neutral(k)
    ensures Decodes(d, t, r) <==> Decodes(d, t.(metadata := t.metadata + extra), r)
    ensures "error" in t.metadata <==> "error" in t.metadata + extra
  {
    forall k ensures PREFIX + k !in extra {
      PrefixedKey(k);
    }
    var t' := t.(metadata := t.metadata + extra);
    assert DecodeFields(d, t') == DecodeFields(d, t);
    forall labels ensures AreLabels(t.metadata, labels) <==> AreLabels(t'.metadata, labels) {
    }
  }

  /** The keys that `Update` sets on an encoded information. */
  function RoutingKeys(fieldPaths: string): Metadata {
    map["os" := "linux", "stage" := "content-store", "method" := "/containerd.services.content.v1.Content/Update",
        "fieldpaths" := fieldPaths]
  }

  lemma RoutingKeysAreNeutral(fieldPaths: string)
    ensures forall k | k in RoutingKeys(fieldPaths) :: Neutral(k)
  {
    assert PREFIX[0] == '_';
  }

  /** Exactly the labels that were encoded are decoded. */
  lemma LabelsRoundTrip(fixed: Metadata, labels: map<string, string>, metadata: Metadata, decoded: map<string, string>)
    requires WithLabels(fixed, labels, metadata) && AreLabels(metadata, decoded)
    requires forall k | k in fixed :: !(PREFIX <= k)
    ensures decoded == labels
  {
    forall k ensures k in decoded <==> k in labels {
      PrefixedKey(k);
    }
    forall k | k in labels ensures decoded[k] == labels[k] {
      assert PREFIX + k in metadata;
    }
  }

  lemma PlainRoundTrip(d: Dates, info: Info, t: Transfer, r: Result)
    requires Expresses(d, info.created) && Expresses(d, info.updated)
    requires t.tag == info.digest && WithLabels(FixedFields(d, info), info.labels, t.metadata)
    requires Decodes(d, t, r)
    ensures r == if IsInt64(info.size)
        then Ok(info.(created := Truncated(info.created), updated := Truncated(info.updated)))
                 else Err(BadSize)
  {
    hide ParseInt, FormatInt, IsInt64;
    SizeRoundTrip(info.size);
    FieldsRoundTrip(d, info, t);
    if r.Ok? {
      FixedFieldsAreNoLabels(d, info);
      hide FixedFields, Field;
      LabelsRoundTrip(FixedFields(d, info), info.labels, t.metadata, r.info.labels);
    }
  }

  lemma FixedFieldsAreNoLabels(d: Dates, info: Info)
    ensures forall k | k in FixedFields(d, info) :: !(PREFIX <= k)
  {
    hide FormatInt;
    assert PREFIX[0] == '_';
  }

  /** Every result of decoding an encoded information, with or without the routing keys: the same
      digest, labels and size, and the times to the second; a size beyond 64 bits is an error. */
  lemma RoundTrip(d: Dates, info: Info, t: Transfer, fieldPaths: Option<string>, r: Result)
    requires Expresses(d, info.created) && Expresses(d, info.updated)
    requires t.tag == info.digest && WithLabels(FixedFields(d, info), info.labels, t.metadata)
    requires Decodes(d, t.(metadata := t.metadata + if fieldPaths.Some? then RoutingKeys(fieldPaths.value) else map[]),
        r)
    ensures r == if IsInt64(info.size)
        then Ok(info.(created := Truncated(info.created), updated := Truncated(info.updated)))
                 else Err(BadSize)
    ensures "error" !in t.metadata
  {
    hide Decodes, WithLabels, IsInt64;
    var extra := if fieldPaths.Some? then RoutingKeys(fieldPaths.value) else map[];
    if fieldPaths.Some? {
      RoutingKeysAreNeutral(fieldPaths.value);
    }
    hide RoutingKeys;
    NeutralKeysDoNotMatter(d, t, extra, r);
    PlainRoundTrip(d, info, t, r);
    FieldsRoundTrip(d, info, t);
  }

  lemma FieldsRoundTrip(d: Dates, info: Info, t: Transfer)
    requires WithLabels(FixedFields(d, info), info.labels, t.metadata)
    ensures Field(t.metadata, "size") == FormatInt(info.size)
    ensures Field(t.metadata, "created_at") == d.format(info.created)
    ensures Field(t.metadata, "updated_at") == d.format(info.updated)
    ensures "error" !in t.metadata
  {
    assert PREFIX[0] == '_';
  }

  // ---- replies ----

  /** The reply carries the encoded information, whatever other keys come with it. */
  ghost predicate Carries(d: Dates, t: Transfer, info: Info) {
    && Expresses(d, info.created) && Expresses(d, info.updated) && t.tag == info.digest
    && exists base: Metadata, extra: Metadata ::
         && WithLabels(FixedFields(d, info), info.labels, base) && t.metadata == base + extra
         && forall k | k in extra :: Neutral(k)
  }

  /** What a caller gets back for an information that the host stores. */
  ghost function Returned(info: Info): Result {
    if IsInt64(info.size) then Ok(info.(created := Truncated(info.created), updated := Truncated(info.updated)))
    else Err(BadSize)
  }

  lemma CarriedIsReturned(d: Dates, t: Transfer, info: Info, r: Result)
    requires Carries(d, t, info) && Decodes(d, t, r)
    ensures r == Returned(info)
  {
    hide Decodes, WithLabels, IsInt64, FixedFields;
    var base: Metadata, extra: Metadata :|
      && WithLabels(FixedFields(d, info), info.labels, base) && t.metadata == base + extra
      && forall k | k in extra :: Neutral(k);
    var plain := t.(metadata := base);
    NeutralKeysDoNotMatter(d, plain, extra, r);
    PlainRoundTrip(d, info, plain, r);
  }

  lemma CarriedIsNoError(d: Dates, t: Transfer, info: Info)
    requires Carries(d, t, info)
    ensures "error" !in t.metadata
  {
    hide WithLabels, FixedFields;
    var base: Metadata, extra: Metadata :|
      && WithLabels(FixedFields(d, info), info.labels, base) && t.metadata == base + extra
      && forall k | k in extra :: Neutral(k);
    FieldsRoundTrip(d, info, t.(metadata := base));
  }

  /** A reply to `Info` or `Update`: the information it carries comes back, no label is taken for an
      error, and an error of the host is reported with its message. */
  method DecodeReply(d: Dates, t: Transfer) returns (r: Result)
    ensures forall info | Carries(d, t, info) :: r == Returned(info)
    ensures "error" in t.metadata <==> r.Err? && r.error.Remote?
    ensures "error" in t.metadata ==> r.error.message == t.metadata["error"]
  {
    forall info | Carries(d, t, info) ensures "error" !in t.metadata {
      CarriedIsNoError(d, t, info);
    }
    if "error" in t.metadata {
      return Err(Remote(t.metadata["error"]));
    }
    r := Decode(d, t);
    forall info | Carries(d, t, info) ensures r == Returned(info) {
      CarriedIsReturned(d, t, info, r);
    }
  }
}
