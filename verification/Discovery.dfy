/** The TXT advertisement of the companion: a printer, a parser and a validator that must agree. */
module Discovery {
  import opened Option
  import opened JsMap

  datatype Advertisement = Advertisement(
    deviceName: string, deviceIdHint: string, serviceVersion: string, protocolVersion: string,
    pairingAvailable: bool, pairedPhoneIds: seq<string>, capabilities: seq<string>)

  const PROTOCOL_VERSION := "0.2"

  /** The seven keys of the record, and any other. None of the seven contains a forbidden fragment, so whether a
      key is sensitive is a question about other names only; it is an arbitrary predicate here. */
  datatype Key =
    | DeviceName | DeviceIdHint | ServiceVersion | ProtocolVersion | PairingAvailable | PairedPhoneIds | Capabilities
    | OtherKey(name: string)

  datatype Error = SensitiveKey | MissingField | EmptyField | VersionUnsupported | BadFlag | NotAnObject | UnknownField
  datatype Result = Ok(ad: Advertisement) | Err(error: Error)

  // ----- texts -----

  function TrimStart(s: string): string {
    if s != "" && IsSpace(s[0]) then TrimStart(s[1..]) else s
  }

  function TrimEnd(s: string): string {
    if s != "" && IsSpace(s[|s| - 1]) then TrimEnd(s[..|s| - 1]) else s
  }

  function Trim(s: string): string {
    TrimEnd(TrimStart(s))
  }

  predicate Trimmed(s: string) {
    s == "" || (!IsSpace(s[0]) && !IsSpace(s[|s| - 1]))
  }

  function Join(items: seq<string>): string {
    if items == [] then "" else if |items| == 1 then items[0] else items[0] + "," + Join(items[1..])
  }

  /** `raw.split(",")` */
  function Split(raw: string): (r: seq<string>)
    ensures |r| > 0
  {
    if raw == "" then [""]
    else if raw[0] == ',' then [""] + Split(raw[1..])
    else
      var rest := Split(raw[1..]);
      [[raw[0]] + rest[0]] + rest[1..]
  }

  function TrimAll(items: seq<string>): seq<string> {
    if items == [] then []
    else
      var item := Trim(items[0]);
      (if item == "" then [] else [item]) + TrimAll(items[1..])
  }

  function SplitList(raw: string): seq<string> {
    if raw == "" then [] else TrimAll(Split(raw))
  }

  // ----- printer, parser, validator -----

  function FlagText(b: bool): string {
    if b then "true" else "false"
  }

  datatype Value = Text(text: string) | Flag(on: bool) | List(items: seq<string>) | Absent | Other(shown: string)

  type Txt = map<Key, Value>

  function Encode(ad: Advertisement): Txt {
    map[
      DeviceName := Text(ad.deviceName),
      DeviceIdHint := Text(ad.deviceIdHint),
      ServiceVersion := Text(ad.serviceVersion),
      ProtocolVersion := Text(ad.protocolVersion),
      PairingAvailable := Text(FlagText(ad.pairingAvailable)),
      PairedPhoneIds := Text(Join(ad.pairedPhoneIds)),
      Capabilities := Text(Join(ad.capabilities))
    ]
  }

  predicate NamesSensitive(txt: Txt, sensitive: string -> bool) {
    exists key :: key in txt && key.OtherKey? && sensitive(key.name)
  }

  predicate IsText(txt: Txt, key: Key) {
    key in txt && txt[key].Text?
  }

  predicate HasTexts(txt: Txt) {
    && IsText(txt, DeviceName) && IsText(txt, DeviceIdHint) && IsText(txt, ServiceVersion) && IsText(txt, ProtocolVersion)
    && IsText(txt, PairingAvailable) && IsText(txt, PairedPhoneIds) && IsText(txt, Capabilities)
  }

  function LowerAscii(s: string): string {
    if s == "" then "" else [if 'A' <= s[0] <= 'Z' then s[0] - 'A' + 'a' else s[0]] + LowerAscii(s[1..])
  }

  function TextAt(txt: Txt, key: Key): string
    requires IsText(txt, key)
  {
    Trim(txt[key].text)
  }

  function Decode(txt: Txt, sensitive: string -> bool): Result {
    if NamesSensitive(txt, sensitive) then Err(SensitiveKey)
    else if !HasTexts(txt) then Err(MissingField)
    else
      var flag := LowerAscii(TextAt(txt, PairingAvailable));
      if TextAt(txt, DeviceName) == "" || TextAt(txt, DeviceIdHint) == "" || TextAt(txt, ServiceVersion) == "" then Err(EmptyField)
      else if TextAt(txt, ProtocolVersion) != PROTOCOL_VERSION then Err(VersionUnsupported)
      else if flag != FlagText(true) && flag != FlagText(false) then Err(BadFlag)
      else Ok(Advertisement(
        TextAt(txt, DeviceName), TextAt(txt, DeviceIdHint), TextAt(txt, ServiceVersion), TextAt(txt, ProtocolVersion),
        flag == FlagText(true), SplitList(TextAt(txt, PairedPhoneIds)), SplitList(TextAt(txt, Capabilities))))
  }

  /** `String(value ?? "")`, with the items of a list joined by commas. */
  function Shown(value: Value): string {
    match value
    case Text(s) => s
    case Flag(b) => FlagText(b)
    case List(items) => Join(items)
    case Absent => ""
    case Other(s) => s
  }

  function ShownAt(fields: Txt, key: Key): Value {
    Text(if key in fields then Shown(fields[key]) else "")
  }

  /** The first key that is not one of the seven decides the error. */
  function BadKey(keys: seq<Key>, sensitive: string -> bool): Option<Error> {
    if keys == [] then None
    else if keys[0].OtherKey? then Some(if sensitive(keys[0].name) then SensitiveKey else UnknownField)
    else BadKey(keys[1..], sensitive)
  }

  /** `validateDiscoveryAdvertisement`; None stands for a value that is no plain object. */
  function Validate(value: Option<JsMap<Key, Value>>, sensitive: string -> bool): Result {
    if value.None? then Err(NotAnObject)
    else if BadKey(value.value.order, sensitive).Some? then Err(BadKey(value.value.order, sensitive).value)
    else
      var f := value.value.data;
      Decode(map[
        DeviceName := ShownAt(f, DeviceName),
        DeviceIdHint := ShownAt(f, DeviceIdHint),
        ServiceVersion := ShownAt(f, ServiceVersion),
        ProtocolVersion := ShownAt(f, ProtocolVersion),
        PairingAvailable := ShownAt(f, PairingAvailable),
        PairedPhoneIds := ShownAt(f, PairedPhoneIds),
        Capabilities := ShownAt(f, Capabilities)
      ], sensitive)
  }

  const SEVEN_KEYS: seq<Key> :=
    [DeviceName, DeviceIdHint, ServiceVersion, ProtocolVersion, PairingAvailable, PairedPhoneIds, Capabilities]

  function AsObject(ad: Advertisement): JsMap<Key, Value> {
    JsMap(SEVEN_KEYS, map[
      DeviceName := Text(ad.deviceName),
      DeviceIdHint := Text(ad.deviceIdHint),
      ServiceVersion := Text(ad.serviceVersion),
      ProtocolVersion := Text(ad.protocolVersion),
      PairingAvailable := Flag(ad.pairingAvailable),
      PairedPhoneIds := List(ad.pairedPhoneIds),
      Capabilities := List(ad.capabilities)
    ])
  }

  // ----- texts: laws -----

  predicate CommaFree(s: string) {
    forall i :: 0 <= i < |s| ==> s[i] != ','
  }

  predicate ListItem(s: string) {
    s != "" && Trimmed(s) && CommaFree(s)
  }

  predicate ListItems(items: seq<string>) {
    forall i :: 0 <= i < |items| ==> ListItem(items[i])
  }

  lemma {:induction false} TrimStartLaws(s: string)
    ensures var r := TrimStart(s);
      && |r| <= |s| && r == s[|s| - |r|..] && (r != "" ==> !IsSpace(r[0])) && (s != "" && !IsSpace(s[0]) ==> r == s)
  {
    if s != "" && IsSpace(s[0]) {
      TrimStartLaws(s[1..]);
    }
  }

  lemma {:induction false} TrimEndLaws(s: string)
    ensures var r := TrimEnd(s);
      && r <= s && (r != "" ==> !IsSpace(r[|r| - 1])) && (s != "" && !IsSpace(s[|s| - 1]) ==> r == s)
  {
    if s != "" && IsSpace(s[|s| - 1]) {
      TrimEndLaws(s[..|s| - 1]);
    }
  }

  /** Trimming gives a trimmed text made of the given characters, and leaves a trimmed text alone. */
  lemma TrimLaws(s: string)
    ensures Trimmed(Trim(s)) && (CommaFree(s) ==> CommaFree(Trim(s))) && (Trimmed(s) ==> Trim(s) == s)
  {
    TrimStartLaws(s);
    TrimEndLaws(TrimStart(s));
  }

  lemma {:induction false} SplitCommaFree(s: string)
    requires CommaFree(s)
    ensures Split(s) == [s]
  {
    if s != "" {
      SplitCommaFree(s[1..]);
      assert [s[0]] + s[1..] == s;
    }
  }

  lemma {:induction false} SplitAtComma(s: string, t: string)
    requires CommaFree(s)
    ensures Split(s + "," + t) == [s] + Split(t)
  {
    var all := s + "," + t;
    if s == "" {
      assert all[1..] == t;
    } else {
      SplitAtComma(s[1..], t);
      assert all[1..] == s[1..] + "," + t;
      assert [s[0]] + s[1..] == s;
    }
  }

  lemma {:induction false} SplitJoin(items: seq<string>)
    requires items != [] && ListItems(items)
    ensures Split(Join(items)) == items
  {
    assert ListItem(items[0]);
    if |items| == 1 {
      SplitCommaFree(items[0]);
    } else {
      forall i | 0 <= i < |items[1..]| ensures ListItem(items[1..][i]) {
        assert ListItem(items[i + 1]);
      }
      SplitJoin(items[1..]);
      SplitAtComma(items[0], Join(items[1..]));
    }
  }

  lemma {:induction false} JoinIsTrimmed(items: seq<string>)
    requires items != [] && ListItems(items)
    ensures Join(items) != "" && Trimmed(Join(items))
  {
    assert ListItem(items[0]);
    if |items| > 1 {
      forall i | 0 <= i < |items[1..]| ensures ListItem(items[1..][i]) {
        assert ListItem(items[i + 1]);
      }
      JoinIsTrimmed(items[1..]);
    }
  }

  lemma {:induction false} TrimAllKeepsItems(items: seq<string>)
    requires ListItems(items)
    ensures TrimAll(items) == items
  {
    if items != [] {
      assert ListItem(items[0]);
      TrimLaws(items[0]);
      forall i | 0 <= i < |items[1..]| ensures ListItem(items[1..][i]) {
        assert ListItem(items[i + 1]);
      }
      TrimAllKeepsItems(items[1..]);
    }
  }

  lemma {:induction false} SplitIsCommaFree(raw: string)
    ensures forall i :: 0 <= i < |Split(raw)| ==> CommaFree(Split(raw)[i])
  {
    if raw != "" {
      SplitIsCommaFree(raw[1..]);
    }
  }

  lemma {:induction false} TrimAllMakesItems(items: seq<string>)
    requires forall i :: 0 <= i < |items| ==> CommaFree(items[i])
    ensures ListItems(TrimAll(items))
  {
    if items != [] {
      assert CommaFree(items[0]);
      TrimLaws(items[0]);
      TrimAllMakesItems(items[1..]);
    }
  }

  lemma SplitListMakesItems(raw: string)
    ensures ListItems(SplitList(raw))
  {
    SplitIsCommaFree(raw);
    TrimAllMakesItems(Split(raw));
  }

  /** A list survives the comma-joined text, with the trimming that the parser applies on the way. */
  lemma ListRoundTrip(items: seq<string>)
    requires ListItems(items)
    ensures SplitList(Trim(Join(items))) == items
  {
    if items == [] {
      TrimLaws("");
    } else {
      JoinIsTrimmed(items);
      TrimLaws(Join(items));
      SplitJoin(items);
      TrimAllKeepsItems(items);
    }
  }

  // ----- the record -----

  predicate RequiredText(s: string) {
    s != "" && Trimmed(s)
  }

  /** What the parser produces. */
  predicate WellFormed(ad: Advertisement) {
    && RequiredText(ad.deviceName) && RequiredText(ad.deviceIdHint) && RequiredText(ad.serviceVersion)
    && ad.protocolVersion == PROTOCOL_VERSION && ListItems(ad.pairedPhoneIds) && ListItems(ad.capabilities)
  }

  /** Every successfully parsed record is of that form, whatever else the record holds. */
  lemma DecodedIsWellFormed(txt: Txt, sensitive: string -> bool)
    ensures Decode(txt, sensitive).Ok? ==> WellFormed(Decode(txt, sensitive).ad) && !NamesSensitive(txt, sensitive)
  {
    if HasTexts(txt) {
      TrimLaws(txt[DeviceName].text);
      TrimLaws(txt[DeviceIdHint].text);
      TrimLaws(txt[ServiceVersion].text);
      SplitListMakesItems(TextAt(txt, PairedPhoneIds));
      SplitListMakesItems(TextAt(txt, Capabilities));
    }
    hide Trim, Trimmed, SplitList, LowerAscii, ListItems, NamesSensitive;
  }

  lemma {:induction false} LowerCaseStays(s: string)
    requires forall i :: 0 <= i < |s| ==> !('A' <= s[i] <= 'Z')
    ensures LowerAscii(s) == s
  {
    if s != "" {
      LowerCaseStays(s[1..]);
    }
  }

  lemma FlagRoundTrip(b: bool)
    ensures LowerAscii(Trim(FlagText(b))) == FlagText(b) && FlagText(true) != FlagText(false)
  {
    TrimLaws(FlagText(b));
    LowerCaseStays(FlagText(b));
    hide Trim, LowerAscii;
  }

  lemma VersionIsTrimmed()
    ensures Trim(PROTOCOL_VERSION) == PROTOCOL_VERSION
  {
    TrimLaws(PROTOCOL_VERSION);
    hide Trim;
  }

  lemma EncodedTexts(ad: Advertisement, sensitive: string -> bool)
    ensures var txt := Encode(ad);
      && HasTexts(txt) && !NamesSensitive(txt, sensitive)
      && TextAt(txt, DeviceName) == Trim(ad.deviceName) && TextAt(txt, DeviceIdHint) == Trim(ad.deviceIdHint)
      && TextAt(txt, ServiceVersion) == Trim(ad.serviceVersion) && TextAt(txt, ProtocolVersion) == Trim(ad.protocolVersion)
      && TextAt(txt, PairingAvailable) == Trim(FlagText(ad.pairingAvailable))
      && TextAt(txt, PairedPhoneIds) == Trim(Join(ad.pairedPhoneIds)) && TextAt(txt, Capabilities) == Trim(Join(ad.capabilities))
  {
    hide Trim, Join, FlagText;
  }

  lemma WellFormedSurvives(ad: Advertisement, sensitive: string -> bool)
    requires WellFormed(ad)
    ensures Decode(Encode(ad), sensitive) == Ok(ad)
  {
    EncodedTexts(ad, sensitive);
    TrimLaws(ad.deviceName);
    TrimLaws(ad.deviceIdHint);
    TrimLaws(ad.serviceVersion);
    VersionIsTrimmed();
    FlagRoundTrip(ad.pairingAvailable);
    ListRoundTrip(ad.pairedPhoneIds);
    ListRoundTrip(ad.capabilities);
    hide Trim, Trimmed, SplitList, LowerAscii, ListItems, NamesSensitive, HasTexts, FlagText, Join, PROTOCOL_VERSION, Encode, TextAt;
  }

  /** An advertisement survives printing and parsing exactly if it is of the form that the parser produces. */
  lemma RoundTripExactly(ad: Advertisement, sensitive: string -> bool)
    ensures Decode(Encode(ad), sensitive) == Ok(ad) <==> WellFormed(ad)
  {
    hide Decode, Encode, WellFormed;
    DecodedIsWellFormed(Encode(ad), sensitive);
    if WellFormed(ad) {
      WellFormedSurvives(ad, sensitive);
    }
  }

  lemma {:induction false} SevenKeysAreGood(keys: seq<Key>, sensitive: string -> bool)
    requires forall i :: 0 <= i < |keys| ==> !keys[i].OtherKey?
    ensures BadKey(keys, sensitive).None?
  {
    if keys != [] {
      SevenKeysAreGood(keys[1..], sensitive);
    }
  }

  /** Validating an advertisement in memory is printing and parsing it. */
  lemma ValidatesAsRoundTrip(ad: Advertisement, sensitive: string -> bool)
    ensures Validate(Some(AsObject(ad)), sensitive) == Decode(Encode(ad), sensitive)
  {
    var f := AsObject(ad).data;
    SevenKeysAreGood(SEVEN_KEYS, sensitive);
    hide Decode, Join, FlagText;
    assert map[
        DeviceName := ShownAt(f, DeviceName),
        DeviceIdHint := ShownAt(f, DeviceIdHint),
        ServiceVersion := ShownAt(f, ServiceVersion),
        ProtocolVersion := ShownAt(f, ProtocolVersion),
        PairingAvailable := ShownAt(f, PairingAvailable),
        PairedPhoneIds := ShownAt(f, PairedPhoneIds),
        Capabilities := ShownAt(f, Capabilities)
      ] == Encode(ad);
  }

  /** What was parsed, or validated, passes validation again and comes back unchanged. */
  lemma ValidatingAgainChangesNothing(txt: Txt, value: Option<JsMap<Key, Value>>, sensitive: string -> bool)
    ensures Decode(txt, sensitive).Ok? ==> Validate(Some(AsObject(Decode(txt, sensitive).ad)), sensitive) == Decode(txt, sensitive)
    ensures Validate(value, sensitive).Ok? ==> Validate(Some(AsObject(Validate(value, sensitive).ad)), sensitive) == Validate(value, sensitive)
  {
    hide Decode, Encode, WellFormed, AsObject;
    if Decode(txt, sensitive).Ok? {
      DecodedIsWellFormed(txt, sensitive);
      RoundTripExactly(Decode(txt, sensitive).ad, sensitive);
      ValidatesAsRoundTrip(Decode(txt, sensitive).ad, sensitive);
    }
    if Validate(value, sensitive).Ok? {
      ValidatedIsWellFormed(value, sensitive);
      RoundTripExactly(Validate(value, sensitive).ad, sensitive);
      ValidatesAsRoundTrip(Validate(value, sensitive).ad, sensitive);
    }
  }

  lemma ValidatedIsWellFormed(value: Option<JsMap<Key, Value>>, sensitive: string -> bool)
    ensures Validate(value, sensitive).Ok? ==> WellFormed(Validate(value, sensitive).ad)
  {
    hide Decode, WellFormed, BadKey;
    if Validate(value, sensitive).Ok? {
      var f := value.value.data;
      DecodedIsWellFormed(map[
        DeviceName := ShownAt(f, DeviceName),
        DeviceIdHint := ShownAt(f, DeviceIdHint),
        ServiceVersion := ShownAt(f, ServiceVersion),
        ProtocolVersion := ShownAt(f, ProtocolVersion),
        PairingAvailable := ShownAt(f, PairingAvailable),
        PairedPhoneIds := ShownAt(f, PairedPhoneIds),
        Capabilities := ShownAt(f, Capabilities)
      ], sensitive);
    }
  }
}
