/** The wire form of a classified verification failure: timestamps with one spelling per instant, and a
    JSON envelope that decodes to exactly the record that encodes to it. Texts are code points. */
module FailureWire {
  import opened Common

  type Text = seq<int>

  // ---------------------------------------------------------------- timestamps

  /** A UTC instant to the microsecond. */
  datatype Instant = Instant(year: int, month: int, day: int, hour: int, minute: int, second: int, micro: int)

  predicate LeapYear(year: int) { year % 4 == 0 && (year % 100 != 0 || year % 400 == 0) }

  function DaysIn(year: int, month: int): int {
    if month == 2 then if LeapYear(year) then 29 else 28
    else if month == 4 || month == 6 || month == 9 || month == 11 then 30
    else 31
  }

  predicate ValidInstant(t: Instant) {
    && 1 <= t.year <= 9999 && 1 <= t.month <= 12 && 1 <= t.day <= DaysIn(t.year, t.month)
    && 0 <= t.hour < 24 && 0 <= t.minute < 60 && 0 <= t.second < 60 && 0 <= t.micro < 1000000
  }

  const DASH := 45
  const DOT := 46
  const ZERO := 48
  const COLON := 58
  const TIME_MARK := 84
  const ZULU := 90

  predicate Digit(c: int) { ZERO <= c <= ZERO + 9 }

  function TwoDigits(n: int): Text
    requires 0 <= n < 100
  {
    [ZERO + n / 10, ZERO + n % 10]
  }

  function ThreeDigits(n: int): Text
    requires 0 <= n < 1000
  {
    [ZERO + n / 100, ZERO + n / 10 % 10, ZERO + n % 10]
  }

  function FourDigits(n: int): Text
    requires 0 <= n < 10000
  {
    TwoDigits(n / 100) + TwoDigits(n % 100)
  }

  /** Whole seconds have no fraction, whole milliseconds three digits, and anything finer six. */
  function Fraction(micro: int): Text
    requires 0 <= micro < 1000000
  {
    if micro == 0 then []
    else if micro % 1000 == 0 then [DOT] + ThreeDigits(micro / 1000)
    else [DOT] + ThreeDigits(micro / 1000) + ThreeDigits(micro % 1000)
  }

  function FormatSeconds(t: Instant): Text
    requires ValidInstant(t)
  {
    FourDigits(t.year) + [DASH] + TwoDigits(t.month) + [DASH] + TwoDigits(t.day) + [TIME_MARK]
    + TwoDigits(t.hour) + [COLON] + TwoDigits(t.minute) + [COLON] + TwoDigits(t.second)
  }

  /** The canonical spelling. */
  function Format(t: Instant): Text
    requires ValidInstant(t)
  {
    FormatSeconds(t) + Fraction(t.micro) + [ZULU]
  }

  predicate DigitsAt(s: Text, i: int, n: int)
    requires 0 <= i && 0 <= n && i + n <= |s|
  {
    forall k :: i <= k < i + n ==> Digit(s[k])
  }

  /** The shape the source's pattern accepts: 0, 3 or 6 fraction digits. */
  predicate Shaped(s: Text) {
    && (|s| == 20 || |s| == 24 || |s| == 27)
    && DigitsAt(s, 0, 4) && s[4] == DASH && DigitsAt(s, 5, 2) && s[7] == DASH && DigitsAt(s, 8, 2)
    && s[10] == TIME_MARK && DigitsAt(s, 11, 2) && s[13] == COLON && DigitsAt(s, 14, 2) && s[16] == COLON
    && DigitsAt(s, 17, 2)
    && (|s| > 20 ==> s[19] == DOT && DigitsAt(s, 20, |s| - 21))
    && s[|s| - 1] == ZULU
  }

  function Read2(s: Text, i: int): int
    requires 0 <= i && i + 2 <= |s|
  {
    (s[i] - ZERO) * 10 + (s[i + 1] - ZERO)
  }

  function Read3(s: Text, i: int): int
    requires 0 <= i && i + 3 <= |s|
  {
    (s[i] - ZERO) * 100 + (s[i + 1] - ZERO) * 10 + (s[i + 2] - ZERO)
  }

  function ReadMicro(s: Text): int
    requires Shaped(s)
  {
    if |s| == 20 then 0 else if |s| == 24 then Read3(s, 20) * 1000 else Read3(s, 20) * 1000 + Read3(s, 23)
  }

  function ReadInstant(s: Text): Instant
    requires Shaped(s)
  {
    Instant(Read2(s, 0) * 100 + Read2(s, 2), Read2(s, 5), Read2(s, 8), Read2(s, 11), Read2(s, 14), Read2(s, 17),
      ReadMicro(s))
  }

  /** Shape, calendar, and then the check that the text is how the instant would be written. */
  function Parse(s: Text): Option<Instant> {
    if !Shaped(s) || !ValidInstant(ReadInstant(s)) || Format(ReadInstant(s)) != s then None
    else Some(ReadInstant(s))
  }

  lemma ReadTwoDigits(s: Text, i: int, n: int)
    requires 0 <= n < 100 && 0 <= i && i + 2 <= |s| && s[i] == ZERO + n / 10 && s[i + 1] == ZERO + n % 10
    ensures DigitsAt(s, i, 2) && Read2(s, i) == n
  {
  }

  lemma ReadThreeDigits(s: Text, i: int, n: int)
    requires 0 <= n < 1000 && 0 <= i && i + 3 <= |s|
    requires s[i] == ZERO + n / 100 && s[i + 1] == ZERO + n / 10 % 10 && s[i + 2] == ZERO + n % 10
    ensures DigitsAt(s, i, 3) && Read3(s, i) == n
  {
    assert n == n / 10 * 10 + n % 10 && n / 10 == n / 10 / 10 * 10 + n / 10 % 10;
    assert n / 10 / 10 == n / 100;
  }

  /** Position by position, the canonical spelling of the part before the fraction. */
  lemma SecondsPart(t: Instant, s: Text)
    requires ValidInstant(t) && |s| >= 19 && s[..19] == FormatSeconds(t)
    ensures DigitsAt(s, 0, 4) && s[4] == DASH && DigitsAt(s, 5, 2) && s[7] == DASH && DigitsAt(s, 8, 2)
    ensures s[10] == TIME_MARK && DigitsAt(s, 11, 2) && s[13] == COLON && DigitsAt(s, 14, 2) && s[16] == COLON
    ensures DigitsAt(s, 17, 2)
    ensures Read2(s, 0) * 100 + Read2(s, 2) == t.year
    ensures Read2(s, 5) == t.month && Read2(s, 8) == t.day && Read2(s, 11) == t.hour
    ensures Read2(s, 14) == t.minute && Read2(s, 17) == t.second
  {
    var f := FormatSeconds(t);
    assert forall k :: 0 <= k < 19 ==> s[k] == f[k];
    ReadTwoDigits(s, 0, t.year / 100);
    ReadTwoDigits(s, 2, t.year % 100);
    ReadTwoDigits(s, 5, t.month);
    ReadTwoDigits(s, 8, t.day);
    ReadTwoDigits(s, 11, t.hour);
    ReadTwoDigits(s, 14, t.minute);
    ReadTwoDigits(s, 17, t.second);
    assert DigitsAt(s, 0, 4) by {
      assert DigitsAt(s, 0, 2) && DigitsAt(s, 2, 2);
      forall k | 0 <= k < 4 ensures Digit(s[k]) { if k >= 2 { assert DigitsAt(s, 2, 2); } }
    }
  }

  lemma FractionPart(t: Instant, s: Text)
    requires ValidInstant(t) && s == Format(t) && |FormatSeconds(t)| == 19
    ensures |s| == (if t.micro == 0 then 20 else if t.micro % 1000 == 0 then 24 else 27)
    ensures s[|s| - 1] == ZULU
    ensures |s| > 20 ==> s[19] == DOT && DigitsAt(s, 20, |s| - 21)
    ensures |s| == 24 ==> Read3(s, 20) * 1000 == t.micro
    ensures |s| == 27 ==> Read3(s, 20) * 1000 + Read3(s, 23) == t.micro
  {
    hide FormatSeconds;
    var fraction := Fraction(t.micro);
    assert s[19..|s| - 1] == fraction;
    if t.micro != 0 {
      assert s[20] == fraction[1] && s[21] == fraction[2] && s[22] == fraction[3];
      ReadThreeDigits(s, 20, t.micro / 1000);
      if t.micro % 1000 != 0 {
        assert s[23] == fraction[4] && s[24] == fraction[5] && s[25] == fraction[6];
        ReadThreeDigits(s, 23, t.micro % 1000);
        forall k | 20 <= k < 26 ensures Digit(s[k]) {
          if k < 23 { assert DigitsAt(s, 20, 3); } else { assert DigitsAt(s, 23, 3); }
        }
      }
    }
  }

  /** Every instant reads back from its canonical spelling. */
  lemma ParseInvertsFormat(t: Instant)
    requires ValidInstant(t)
    ensures Parse(Format(t)) == Some(t)
  {
    var s := Format(t);
    assert s[..19] == FormatSeconds(t);
    SecondsPart(t, s);
    FractionPart(t, s);
    hide FormatSeconds, Fraction, DigitsAt;
    assert Shaped(s);
    assert ReadInstant(s) == t;
  }

  /** And the canonical spelling is the only accepted one: a text is accepted exactly when it is the
      spelling of some instant, and then of no other. */
  lemma AcceptedSpellingIsUnique(s: Text, t: Instant)
    requires ValidInstant(t)
    ensures Parse(s) == Some(t) <==> s == Format(t)
  {
    ParseInvertsFormat(t);
    hide Shaped, Format;
  }

  // ---------------------------------------------------------------- failure records

  datatype Category =
    | Timeout | PolicyBlock | ContractViolation | SourceDrift | Environment | Infrastructure
    | TestFailedUnclassified | ProductBug | TestFragility

  datatype Confirmation = Provisional | Confirmed

  datatype Failure = Failure(
    version: int, id: Text, category: Category, confirmation: Confirmation,
    classifier: Text, supersedes: Option<Text>, criterion: Option<Text>,
    summary: Text, recordedAt: Instant)

  predicate AlphaNumeric(c: int) { 48 <= c <= 57 || 65 <= c <= 90 || 97 <= c <= 122 }

  /** A letter or digit, then letters, digits, dots, underscores, colons and dashes. */
  predicate Symbolic(name: Text) {
    && name != [] && AlphaNumeric(name[0])
    && forall i :: 0 < i < |name| ==>
         AlphaNumeric(name[i]) || name[i] == DOT || name[i] == 95 || name[i] == COLON || name[i] == DASH
  }

  /** The code points a text is stripped of. */
  predicate Blank(c: int) {
    || 9 <= c <= 13 || 28 <= c <= 32 || c == 133 || c == 160 || c == 5760 || 8192 <= c <= 8202
    || c == 8232 || c == 8233 || c == 8239 || c == 8287 || c == 12288
  }

  predicate Sensitive(category: Category) { category.ProductBug? || category.TestFragility? }

  predicate ValidFailure(f: Failure) {
    && f.version == 1
    && Symbolic(f.id) && Symbolic(f.classifier)
    && (f.criterion.Some? ==> Symbolic(f.criterion.value))
    && (f.supersedes.Some? ==> Symbolic(f.supersedes.value) && f.supersedes.value != f.id)
    && (exists i :: 0 <= i < |f.summary| && !Blank(f.summary[i]))
    && 0 !in f.summary
    && ValidInstant(f.recordedAt)
    && (Sensitive(f.category) ==> (f.confirmation.Provisional? <==> f.supersedes.None?))
  }

  // ---------------------------------------------------------------- the envelope

  datatype Key =
    | FailureKey | ClassifierKey
    | VersionKey | IdKey | CategoryKey | ConfirmationKey | SummaryKey | RecordedAtKey
    | SupersedesKey | CriterionKey
    | OtherKey(name: Text)

  datatype Json =
    | JNull
    | JBool(b: bool)
    | JInt(n: int)
    | JFloat
    | JText(text: Text)
    | JList(items: seq<Json>)
    | JObject(fields: map<Key, Json>)

  function CategoryText(c: Category): Text {
    match c
    case Timeout => [116, 105, 109, 101, 111, 117, 116]  // timeout
    case PolicyBlock => [112, 111, 108, 105, 99, 121, 95, 98, 108, 111, 99, 107]  // policy_block
    case ContractViolation => [99, 111, 110, 116, 114, 97, 99, 116, 95, 118, 105, 111, 108, 97, 116, 105, 111, 110]  // contract_violation
    case SourceDrift => [115, 111, 117, 114, 99, 101, 95, 100, 114, 105, 102, 116]  // source_drift
    case Environment => [101, 110, 118, 105, 114, 111, 110, 109, 101, 110, 116]  // environment
    case Infrastructure => [105, 110, 102, 114, 97, 115, 116, 114, 117, 99, 116, 117, 114, 101]  // infrastructure
    case TestFailedUnclassified => [116, 101, 115, 116, 95, 102, 97, 105, 108, 101, 100, 95, 117, 110, 99, 108, 97, 115, 115, 105, 102, 105, 101, 100]  // test_failed_unclassified
    case ProductBug => [112, 114, 111, 100, 117, 99, 116, 95, 98, 117, 103]  // product_bug
    case TestFragility => [116, 101, 115, 116, 95, 102, 114, 97, 103, 105, 108, 105, 116, 121]  // test_fragility
  }

  function ConfirmationText(c: Confirmation): Text {
    match c
    case Provisional => [112, 114, 111, 118, 105, 115, 105, 111, 110, 97, 108]  // provisional
    case Confirmed => [99, 111, 110, 102, 105, 114, 109, 101, 100]  // confirmed
  }

  function CategoryOf(text: Text): Option<Category> {
    if text == CategoryText(Timeout) then Some(Timeout)
    else if text == CategoryText(PolicyBlock) then Some(PolicyBlock)
    else if text == CategoryText(ContractViolation) then Some(ContractViolation)
    else if text == CategoryText(SourceDrift) then Some(SourceDrift)
    else if text == CategoryText(Environment) then Some(Environment)
    else if text == CategoryText(Infrastructure) then Some(Infrastructure)
    else if text == CategoryText(TestFailedUnclassified) then Some(TestFailedUnclassified)
    else if text == CategoryText(ProductBug) then Some(ProductBug)
    else if text == CategoryText(TestFragility) then Some(TestFragility)
    else None
  }

  function ConfirmationOf(text: Text): Option<Confirmation> {
    if text == ConfirmationText(Provisional) then Some(Provisional)
    else if text == ConfirmationText(Confirmed) then Some(Confirmed)
    else None
  }

  const REQUIRED := {VersionKey, IdKey, CategoryKey, ConfirmationKey, SummaryKey, RecordedAtKey}

  const OPTIONAL := {SupersedesKey, CriterionKey}

  function OptionalField(key: Key, value: Option<Text>): map<Key, Json> {
    if value.None? then map[] else map[key := JText(value.value)]
  }

  function FailureFields(f: Failure): map<Key, Json>
    requires ValidInstant(f.recordedAt)
  {
    map[VersionKey := JInt(f.version), IdKey := JText(f.id), CategoryKey := JText(CategoryText(f.category)),
        ConfirmationKey := JText(ConfirmationText(f.confirmation)), SummaryKey := JText(f.summary),
        RecordedAtKey := JText(Format(f.recordedAt))]
    + OptionalField(SupersedesKey, f.supersedes) + OptionalField(CriterionKey, f.criterion)
  }

  function ToWire(f: Failure): Option<Json> {
    if !ValidFailure(f) then None
    else Some(JObject(map[FailureKey := JObject(FailureFields(f)), ClassifierKey := JText(f.classifier)]))
  }

  /** An optional field that is missing or null is absent; anything but a text is refused. */
  function ReadOptional(fields: map<Key, Json>, key: Key): Option<Option<Text>> {
    if key !in fields || fields[key].JNull? then Some(None)
    else if fields[key].JText? then Some(Some(fields[key].text))
    else None
  }

  predicate WellFormed(w: Json) {
    && w.JObject? && w.fields.Keys == {FailureKey, ClassifierKey}
    && w.fields[FailureKey].JObject? && w.fields[ClassifierKey].JText?
    && var fields := w.fields[FailureKey].fields;
       (&& REQUIRED <= fields.Keys <= REQUIRED + OPTIONAL
        && fields[VersionKey].JInt? && fields[IdKey].JText? && fields[CategoryKey].JText?
        && fields[ConfirmationKey].JText? && fields[SummaryKey].JText? && fields[RecordedAtKey].JText?
        && ReadOptional(fields, SupersedesKey).Some? && ReadOptional(fields, CriterionKey).Some?)
  }

  function FromWire(w: Json): Option<Failure> {
    if !WellFormed(w) then None
    else
      var fields := w.fields[FailureKey].fields;
      var category := CategoryOf(fields[CategoryKey].text);
      var confirmation := ConfirmationOf(fields[ConfirmationKey].text);
      var recordedAt := Parse(fields[RecordedAtKey].text);
      if category.None? || confirmation.None? || recordedAt.None? then None
      else
        var f := Failure(fields[VersionKey].n, fields[IdKey].text, category.value, confirmation.value,
          w.fields[ClassifierKey].text, ReadOptional(fields, SupersedesKey).value,
          ReadOptional(fields, CriterionKey).value, fields[SummaryKey].text, recordedAt.value);
        if ValidFailure(f) then Some(f) else None
  }

  lemma SpellingsAreDistinct(c: Category, d: Confirmation, text: Text)
    ensures CategoryOf(CategoryText(c)) == Some(c)
    ensures ConfirmationOf(ConfirmationText(d)) == Some(d)
    ensures CategoryOf(text).Some? ==> CategoryText(CategoryOf(text).value) == text
    ensures ConfirmationOf(text).Some? ==> ConfirmationText(ConfirmationOf(text).value) == text
  {
  }

  /** What the encoded fields hold. */
  lemma EncodedFields(f: Failure)
    requires ValidInstant(f.recordedAt)
    ensures var fields := FailureFields(f);
            && REQUIRED <= fields.Keys <= REQUIRED + OPTIONAL
            && fields[VersionKey] == JInt(f.version) && fields[IdKey] == JText(f.id)
            && fields[CategoryKey] == JText(CategoryText(f.category))
            && fields[ConfirmationKey] == JText(ConfirmationText(f.confirmation))
            && fields[SummaryKey] == JText(f.summary) && fields[RecordedAtKey] == JText(Format(f.recordedAt))
            && ReadOptional(fields, SupersedesKey) == Some(f.supersedes)
            && ReadOptional(fields, CriterionKey) == Some(f.criterion)
  {
    hide CategoryText, ConfirmationText, Format;
  }

  /** Every valid record survives the wire. */
  lemma DecodeInvertsEncode(f: Failure)
    requires ValidFailure(f)
    ensures ToWire(f).Some? && FromWire(ToWire(f).value) == Some(f)
  {
    hide CategoryText, ConfirmationText, CategoryOf, ConfirmationOf, Parse, Format, Symbolic, Blank, FailureFields;
    hide ReadOptional, ValidInstant;
    var w := ToWire(f).value;
    EncodedFields(f);
    SpellingsAreDistinct(f.category, f.confirmation, []);
    ParseInvertsFormat(f.recordedAt);
    hide ValidFailure;
    assert w == JObject(map[FailureKey := JObject(FailureFields(f)), ClassifierKey := JText(f.classifier)]);
    assert w.fields.Keys == {FailureKey, ClassifierKey};
    assert WellFormed(w);
  }

  /** An envelope with explicit nulls in the two optional fields removed. */
  function WithoutNulls(fields: map<Key, Json>): map<Key, Json> {
    map k | k in fields && !(k in OPTIONAL && fields[k].JNull?) :: fields[k]
  }

  /** Every accepted envelope is the encoding of what it decodes to, up to explicit nulls: no two spellings
      of one record are accepted otherwise. */
  lemma EncodeInvertsDecode(w: Json)
    requires FromWire(w).Some?
    ensures w.JObject? && FailureKey in w.fields && w.fields[FailureKey].JObject?
    ensures ToWire(FromWire(w).value)
         == Some(JObject(w.fields[FailureKey := JObject(WithoutNulls(w.fields[FailureKey].fields))]))
  {
    hide CategoryText, ConfirmationText, CategoryOf, ConfirmationOf, Parse, Format, Symbolic, Blank;
    var f := FromWire(w).value;
    var fields := w.fields[FailureKey].fields;
    SpellingsAreDistinct(f.category, f.confirmation, fields[CategoryKey].text);
    SpellingsAreDistinct(f.category, f.confirmation, fields[ConfirmationKey].text);
    AcceptedSpellingIsUnique(fields[RecordedAtKey].text, f.recordedAt);
    FieldsAgree(fields, f);
    assert w.fields[FailureKey := JObject(WithoutNulls(fields))]
        == map[FailureKey := JObject(FailureFields(f)), ClassifierKey := JText(f.classifier)];
  }

  lemma FieldsAgree(fields: map<Key, Json>, f: Failure)
    requires ValidInstant(f.recordedAt)
    requires REQUIRED <= fields.Keys <= REQUIRED + OPTIONAL
    requires fields[VersionKey] == JInt(f.version) && fields[IdKey] == JText(f.id)
    requires fields[CategoryKey] == JText(CategoryText(f.category))
    requires fields[ConfirmationKey] == JText(ConfirmationText(f.confirmation))
    requires fields[SummaryKey] == JText(f.summary) && fields[RecordedAtKey] == JText(Format(f.recordedAt))
    requires ReadOptional(fields, SupersedesKey) == Some(f.supersedes)
    requires ReadOptional(fields, CriterionKey) == Some(f.criterion)
    ensures WithoutNulls(fields) == FailureFields(f)
  {
    hide CategoryText, ConfirmationText, Format;
    var expected, actual := FailureFields(f), WithoutNulls(fields);
    forall k ensures k in actual <==> k in expected {
      if k in fields { assert k in REQUIRED + OPTIONAL; }
    }
    forall k | k in actual ensures actual[k] == expected[k] {
      assert k in REQUIRED + OPTIONAL;
    }
  }
}
