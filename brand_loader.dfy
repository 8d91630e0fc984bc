/** brands/brand-loader.js: picks one of the two static brand records and reads
    values out of it. */
module BrandLoader {
  import opened JsRuntime

  // ===========================================================================
  // Brand records as JSON-like values

  datatype JValue =
    | JStr(s: string)
    | JNum(n: int)
    | JBool(b: bool)
    | JNull
    | JArr(items: seq<JValue>)
    | JObj(fields: seq<(string, JValue)>)

  /** An object literal's own property `k`. The keys of every record modelled
      here are distinct, so the first field with the key is the only one. */
  function FieldOf(fields: seq<(string, JValue)>, k: string): (r: Option<JValue>)
    ensures r.None? <==> forall i :: 0 <= i < |fields| ==> fields[i].0 != k
    ensures r.Some? ==> exists i :: 0 <= i < |fields| && fields[i] == (k, r.value)
  {
    if fields == [] then None
    else if fields[0].0 == k then
      assert fields[0] == (k, fields[0].1);
      Some(fields[0].1)
    else
      var r := FieldOf(fields[1..], k);
      assert forall i :: 1 <= i < |fields| ==> fields[i] == fields[1..][i - 1];
      r
  }

  lemma {:induction false} FieldOfFirst(fields: seq<(string, JValue)>, k: string, i: nat)
    requires i < |fields| && fields[i].0 == k
    requires forall j :: 0 <= j < i ==> fields[j].0 != k
    ensures FieldOf(fields, k) == Some(fields[i].1)
  {
    if i > 0 {
      FieldOfFirst(fields[1..], k, i - 1);
    }
  }

  predicate IsDigitChar(c: char) {
    '0' <= c <= '9'
  }

  predicate AllDigits(s: string) {
    forall i :: 0 <= i < |s| ==> IsDigitChar(s[i])
  }

  /** A decimal numeral without superfluous leading zeros. */
  predicate Canonical(s: string) {
    s != [] && AllDigits(s) && (s[0] != '0' || s == "0")
  }

  /** The number a string of decimal digits denotes. */
  function DigitsValue(k: string): nat
    requires AllDigits(k)
  {
    if k == [] then 0
    else
      assert IsDigitChar(k[|k| - 1]);
      DigitsValue(k[..|k| - 1]) * 10 + (k[|k| - 1] as int - '0' as int)
  }

  /** The array index a property key denotes: a decimal numeral without
      leading zeros. */
  function ArrayIndex(k: string): (r: Option<nat>)
    ensures r.Some? <==> Canonical(k)
    ensures r.Some? ==> AllDigits(k) && r.value == DigitsValue(k)
  {
    if k != [] && (forall i :: 0 <= i < |k| ==> IsDigitChar(k[i])) && (k[0] != '0' || |k| == 1)
    then Some(DigitsValue(k))
    else None
  }

  /** `v?.[k]`; None is `undefined`. Members inherited from a prototype are not modelled. */
  function Prop(v: JValue, k: string): Option<JValue> {
    match v
    case JObj(fs) => FieldOf(fs, k)
    case JArr(xs) =>
      if k == "length" then Some(JNum(|xs|))
      else
        var n := ArrayIndex(k);
        if n.Some? && n.value < |xs| then Some(xs[n.value]) else None
    case JStr(s) =>
      if k == "length" then Some(JNum(|s|))
      else
        var n := ArrayIndex(k);
        if n.Some? && n.value < |s| then Some(JStr([s[n.value]])) else None
    case _ => None
  }

  /** The value at the end of the key path, or None as soon as a segment is missing. */
  function Walk(v: JValue, keys: seq<string>): Option<JValue>
    decreases |keys|
  {
    if keys == [] then Some(v)
    else
      match Prop(v, keys[0])
      case None => None
      case Some(w) => Walk(w, keys[1..])
  }

  function WalkFrom(o: Option<JValue>, keys: seq<string>): Option<JValue> {
    match o
    case None => None
    case Some(v) => Walk(v, keys)
  }

  /** A path walk is the walk of its first part continued with the rest. */
  lemma {:induction false} WalkAppend(v: JValue, p: seq<string>, q: seq<string>)
    ensures Walk(v, p + q) == WalkFrom(Walk(v, p), q)
    decreases |p|
  {
    if p == [] {
      assert p + q == q;
    } else {
      assert (p + q)[0] == p[0];
      assert (p + q)[1..] == p[1..] + q;
      match Prop(v, p[0])
      case None =>
      case Some(w) => WalkAppend(w, p[1..], q);
    }
  }

  /** Once a segment is missing the result stays `undefined`, whatever follows. */
  lemma MissingSegmentStaysUndefined(v: JValue, p: seq<string>, q: seq<string>)
    requires Walk(v, p).None?
    ensures Walk(v, p + q).None?
  {
    WalkAppend(v, p, q);
  }

  // ===========================================================================
  // key.split('.') and its inverse

  function Split(s: string): (parts: seq<string>)
    ensures |parts| >= 1
    ensures forall i :: 0 <= i < |parts| ==> '.' !in parts[i]
  {
    if s == [] then [""]
    else
      var rest := Split(s[1..]);
      if s[0] == '.' then [""] + rest
      else [[s[0]] + rest[0]] + rest[1..]
  }

  function Join(parts: seq<string>): string
    requires |parts| >= 1
  {
    if |parts| == 1 then parts[0] else parts[0] + "." + Join(parts[1..])
  }

  lemma {:induction false} JoinSplit(s: string)
    ensures Join(Split(s)) == s
  {
    if s != [] {
      var rest := Split(s[1..]);
      JoinSplit(s[1..]);
      if s[0] == '.' {
        assert ([""] + rest)[1..] == rest;
      } else {
        var parts := [[s[0]] + rest[0]] + rest[1..];
        if |rest| == 1 {
          assert s == [s[0]] + s[1..];
        } else {
          assert parts[1..] == rest[1..];
          assert Join(rest) == rest[0] + "." + Join(rest[1..]);
          assert s == [s[0]] + s[1..];
        }
      }
    }
  }

  lemma {:induction false} SplitPrefix(w: string, t: string)
    requires '.' !in w
    ensures Split(w + t) == [w + Split(t)[0]] + Split(t)[1..]
    decreases |w|
  {
    if w != [] {
      SplitPrefix(w[1..], t);
      assert (w + t)[1..] == w[1..] + t;
      assert (w + t)[0] == w[0];
      assert [w[0]] + (w[1..] + Split(t)[0]) == w + Split(t)[0];
    } else {
      assert w + t == t;
      assert w + Split(t)[0] == Split(t)[0];
      assert Split(t) == [Split(t)[0]] + Split(t)[1..];
    }
  }

  lemma {:induction false} SplitJoin(parts: seq<string>)
    requires |parts| >= 1
    requires forall i :: 0 <= i < |parts| ==> '.' !in parts[i]
    ensures Split(Join(parts)) == parts
    decreases |parts|
  {
    if |parts| == 1 {
      SplitPrefix(parts[0], "");
      assert parts[0] + "" == parts[0];
    } else {
      var tail := Join(parts[1..]);
      SplitJoin(parts[1..]);
      assert parts[0] + "." + tail == parts[0] + ("." + tail);
      SplitPrefix(parts[0], "." + tail);
      assert ("." + tail)[1..] == tail;
      assert Split("." + tail) == [""] + parts[1..];
      assert parts[0] + "" == parts[0];
      assert parts == [parts[0]] + parts[1..];
    }
  }

  // ===========================================================================
  // The two brand records (only the fields the loader's callers read)

  const FronteraBadges: JValue := JArr([
    JStr("NOM-151-SCFI"), JStr("LFPDPPP"), JStr("SOC 2 Type II"),
    JStr("ISO 27001"), JStr("CCPA"), JStr("TXPPA")])

  const CapitalBadges: JValue := JArr([
    JStr("SOC 2 Type II"), JStr("ISO 27001"), JStr("HIPAA"), JStr("PCI DSS"), JStr("FedRAMP Ready")])

  const FronteraContact: JValue := JObj([
    ("solutions", JObj([("phone", JStr("+1 (956) 555-SAFE")),
                        ("phoneAlt", JStr("+52 (81) 5555-7233")),
                        ("email", JStr("soluciones@aifronteradefender.com"))])),
    ("support", JObj([("phone", JStr("+1 (915) 555-HELP")),
                      ("phoneAlt", JStr("+52 (55) 5555-4357")),
                      ("email", JStr("soporte@aifronteradefender.com"))])),
    ("emergency", JObj([("phone", JStr("+1 (210) 911-HACK")),
                        ("phoneAlt", JStr("+52 (81) 9111-4225")),
                        ("email", JStr("incidente@aifronteradefender.com"))]))])

  const CapitalContact: JValue := JObj([
    ("solutions", JObj([("phone", JStr("+1 (888) 555-SCAN")),
                        ("email", JStr("solutions@aicapitaldefender.com"))])),
    ("support", JObj([("phone", JStr("+1 (888) 555-HELP")),
                      ("email", JStr("success@aicapitaldefender.com"))])),
    ("emergency", JObj([("phone", JStr("+1 (888) 911-HACK")),
                        ("email", JStr("incident@aicapitaldefender.com"))]))])

  const FronteraConfig: JValue := JObj([
    ("brand", JStr("frontera")),
    ("siteName", JStr("AI Frontera Defender")),
    ("language", JStr("es-en")),
    ("currency", JStr("USD/MXN")),
    ("contact", FronteraContact),
    ("compliance", FronteraBadges)])

  const CapitalConfig: JValue := JObj([
    ("brand", JStr("capital")),
    ("siteName", JStr("AI Capital Defender")),
    ("language", JStr("en")),
    ("currency", JStr("USD")),
    ("contact", CapitalContact),
    ("compliance", CapitalBadges)])

  // ===========================================================================
  // Brand detection

  datatype Location = Location(hostname: string, port: string)

  /** `process.env.BRAND` (None when `process` or the variable is absent) and
      `window.location` (None outside a browser). */
  datatype BrandEnv = BrandEnv(brandVariable: Option<string>, window: Option<Location>)

  predicate BrandVariableSet(env: BrandEnv) {
    env.brandVariable.Some? && env.brandVariable.value != ""
  }

  function DetectBrand(env: BrandEnv): (name: string)
    ensures BrandVariableSet(env) ==> name == env.brandVariable.value
    ensures !BrandVariableSet(env) ==> name == "frontera" || name == "capital"
    ensures !BrandVariableSet(env) ==>
              (name == "frontera" <==>
                 env.window.Some? &&
                 (Includes(env.window.value.hostname, "frontera") ||
                  (!Includes(env.window.value.hostname, "capital") && env.window.value.port == "3001")))
  {
    if BrandVariableSet(env) then env.brandVariable.value
    else if env.window.Some? then
      var host := env.window.value.hostname;
      if Includes(host, "frontera") then "frontera"
      else if Includes(host, "capital") then "capital"
      else if env.window.value.port == "3001" then "frontera"
      else if env.window.value.port == "3000" then "capital"
      else "capital"
    else "capital"
  }

  lemma HostnameWithBothBrandsIsFrontera(env: BrandEnv)
    requires !BrandVariableSet(env) && env.window.Some?
    requires Includes(env.window.value.hostname, "frontera") && Includes(env.window.value.hostname, "capital")
    ensures DetectBrand(env) == "frontera"
  {
  }

  /** `brandOverride || detectBrand()` */
  function ResolvedBrand(brandOverride: Option<string>, env: BrandEnv): (name: string)
    ensures brandOverride.Some? && brandOverride.value != "" ==> name == brandOverride.value
    ensures brandOverride.None? || brandOverride.value == "" ==> name == DetectBrand(env)
  {
    if brandOverride.Some? && brandOverride.value != "" then brandOverride.value else DetectBrand(env)
  }

  lemma BrandRecordsDiffer()
    ensures FronteraConfig != CapitalConfig
  {
    assert FronteraConfig.fields[0] != CapitalConfig.fields[0];
  }

  function LoadBrandConfig(brandOverride: Option<string>, env: BrandEnv): (config: JValue)
    ensures config == FronteraConfig || config == CapitalConfig
    ensures config == FronteraConfig <==> ResolvedBrand(brandOverride, env) == "frontera"
  {
    BrandRecordsDiffer();
    if ResolvedBrand(brandOverride, env) == "frontera" then FronteraConfig else CapitalConfig
  }

  // ===========================================================================
  // Reading brand content

  method GetBrandContent(key: string, brand: Option<string>, env: BrandEnv)
    returns (value: Option<JValue>)
    ensures value == Walk(LoadBrandConfig(brand, env), Split(key))
  {
    var config := LoadBrandConfig(brand, env);
    var keys := Split(key);
    var current := config;
    var i := 0;
    value := Some(config);
    while i < |keys|
      invariant 0 <= i <= |keys|
      invariant value == Some(current)
      invariant Walk(config, keys) == Walk(current, keys[i..])
    {
      value := Prop(current, keys[i]);
      if value.None? {
        break;
      }
      current := value.value;
      i := i + 1;
    }
  }

  lemma ContactPathSplits()
    ensures Split("contact.solutions.phone") == ["contact", "solutions", "phone"]
  {
    var parts := ["contact", "solutions", "phone"];
    assert Join(parts[2..]) == "phone";
    assert Join(parts[1..]) == "solutions.phone";
    assert Join(parts) == "contact.solutions.phone";
    SplitJoin(parts);
  }

  lemma FronteraSolutionsPhone()
    ensures Walk(FronteraConfig, ["contact", "solutions", "phone"]) == Some(JStr("+1 (956) 555-SAFE"))
  {
    var ks := ["contact", "solutions", "phone"];
    FieldOfFirst(FronteraConfig.fields, "contact", 4);
    var solutions := FronteraContact.fields[0].1;
    FieldOfFirst(FronteraContact.fields, "solutions", 0);
    FieldOfFirst(solutions.fields, "phone", 0);
    assert ks[1..][1..] == ["phone"];
    assert Walk(solutions, ["phone"]) == Some(JStr("+1 (956) 555-SAFE"));
    assert Walk(FronteraContact, ks[1..]) == Walk(solutions, ["phone"]);
  }

  lemma CapitalSolutionsPhone()
    ensures Walk(CapitalConfig, ["contact", "solutions", "phone"]) == Some(JStr("+1 (888) 555-SCAN"))
  {
    var ks := ["contact", "solutions", "phone"];
    FieldOfFirst(CapitalConfig.fields, "contact", 4);
    var solutions := CapitalContact.fields[0].1;
    FieldOfFirst(CapitalContact.fields, "solutions", 0);
    FieldOfFirst(solutions.fields, "phone", 0);
    assert ks[1..][1..] == ["phone"];
    assert Walk(solutions, ["phone"]) == Some(JStr("+1 (888) 555-SCAN"));
    assert Walk(CapitalContact, ks[1..]) == Walk(solutions, ["phone"]);
  }

  /** `getBrandContent('contact.solutions.phone', brand)` is that brand's solutions phone. */
  lemma SolutionsPhone(env: BrandEnv)
    ensures Walk(LoadBrandConfig(Some("frontera"), env), Split("contact.solutions.phone"))
         == Some(JStr("+1 (956) 555-SAFE"))
    ensures Walk(LoadBrandConfig(Some("capital"), env), Split("contact.solutions.phone"))
         == Some(JStr("+1 (888) 555-SCAN"))
  {
    ContactPathSplits();
    FronteraSolutionsPhone();
    CapitalSolutionsPhone();
  }

  lemma NonexistentPathIsUndefined(brand: Option<string>, env: BrandEnv)
    ensures Walk(LoadBrandConfig(brand, env), Split("nonexistent.path")).None?
  {
    var parts := ["nonexistent", "path"];
    assert Join(parts[1..]) == "path";
    assert Join(parts) == "nonexistent.path";
    SplitJoin(parts);
    NoNonexistentKey();
  }

  /** Neither brand record has a top-level key `nonexistent`. */
  lemma NoNonexistentKey()
    ensures FieldOf(FronteraConfig.fields, "nonexistent").None?
    ensures FieldOf(CapitalConfig.fields, "nonexistent").None?
  {
  }

  /** `isFrontera()`: a set BRAND decides; otherwise the page must be on a
      `frontera` host, or on port 3001 of a host that is not `capital`. */
  function IsFrontera(env: BrandEnv): (b: bool)
    ensures BrandVariableSet(env) ==> (b <==> env.brandVariable.value == "frontera")
    ensures !BrandVariableSet(env) ==>
              (b <==> env.window.Some? &&
                      (Includes(env.window.value.hostname, "frontera") ||
                       (!Includes(env.window.value.hostname, "capital") && env.window.value.port == "3001")))
  {
    DetectBrand(env) == "frontera"
  }

  /** `getText(enText, esText)`. */
  function GetText(env: BrandEnv, enText: string, esText: Option<string>): (r: string)
    ensures r != enText <==> IsFrontera(env) && esText.Some? && esText.value != ""
    ensures r != enText ==> r == esText.value + " | " + enText
  {
    if IsFrontera(env) && esText.Some? && esText.value != "" then
      var r := esText.value + " | " + enText;
      assert |r| > |enText|;
      r
    else enText
  }

  // ===========================================================================
  // Currency text

  function DigitChar(d: nat): (c: char)
    requires d < 10
    ensures IsDigitChar(c) && c as int - '0' as int == d
  {
    (48 + d) as char
  }

  /** The decimal text of a natural number. */
  function Decimal(n: nat): (s: string)
    ensures Canonical(s) && DigitsValue(s) == n
    ensures n < 10 ==> |s| == 1
    ensures n < 100 ==> |s| <= 2
    ensures n < 1000 ==> |s| <= 3
  {
    if n < 10 then
      var s := [DigitChar(n)];
      assert s[..0] == [];
      s
    else
      var p := Decimal(n / 10);
      var c := DigitChar(n % 10);
      var s := p + [c];
      assert s[..|s| - 1] == p && s[|s| - 1] == c;
      assert DigitsValue(s) == DigitsValue(p) * 10 + n % 10;
      assert p != "0" by { assert DigitsValue("0") == 0; }
      assert s[0] == p[0];
      s
  }

  /** A canonical numeral below 10 is that one digit. */
  lemma {:induction false} LeadingDigitPositive(k: string)
    requires AllDigits(k) && k != [] && k[0] != '0'
    ensures DigitsValue(k) >= 1
  {
    if |k| > 1 {
      var p := k[..|k| - 1];
      assert p[0] == k[0];
      LeadingDigitPositive(p);
    }
  }

  /** Every canonical numeral is the decimal text of its value. */
  lemma {:induction false} DecimalOfValue(k: string)
    requires Canonical(k)
    ensures Decimal(DigitsValue(k)) == k
  {
    var p := k[..|k| - 1];
    var d := k[|k| - 1] as int - '0' as int;
    if p == [] {
      assert k == [k[0]];
    } else {
      assert p[0] == k[0] && k != "0";
      assert AllDigits(p) && Canonical(p);
      LeadingDigitPositive(p);
      DecimalOfValue(p);
      var v := DigitsValue(k);
      assert v == DigitsValue(p) * 10 + d && 0 <= d < 10;
      assert v / 10 == DigitsValue(p) && v % 10 == d;
      assert k == p + [k[|k| - 1]];
    }
  }

  /** Array indices and decimal texts are inverse to each other. */
  lemma ArrayIndexDecimal(n: nat)
    ensures ArrayIndex(Decimal(n)) == Some(n)
  {
  }

  lemma ArrayIndexIsDecimal(k: string)
    requires ArrayIndex(k).Some?
    ensures k == Decimal(ArrayIndex(k).value)
  {
    DecimalOfValue(k);
  }

  predicate IsNumeralChar(c: char) {
    IsDigitChar(c) || c == ',' || c == '-'
  }

  /** A numeral text with its thousands separators removed. */
  function Uncomma(s: string): (r: string)
    ensures |r| <= |s|
  {
    if s == [] then []
    else if s[|s| - 1] == ',' then Uncomma(s[..|s| - 1])
    else Uncomma(s[..|s| - 1]) + [s[|s| - 1]]
  }

  lemma {:induction false} UncommaAppend(a: string, b: string)
    ensures Uncomma(a + b) == Uncomma(a) + Uncomma(b)
  {
    if b != [] {
      var b' := b[..|b| - 1];
      assert (a + b)[..|a + b| - 1] == a + b';
      UncommaAppend(a, b');
    } else {
      assert a + b == a;
    }
  }

  /** Digits in groups of three separated by commas, the first group holding
      one to three digits. */
  predicate WellGrouped(s: string)
    decreases |s|
  {
    (1 <= |s| <= 3 && AllDigits(s)) ||
    (|s| > 4 && s[|s| - 4] == ',' && AllDigits(s[|s| - 3..]) && WellGrouped(s[..|s| - 4]))
  }

  /** The last three digits of a number of at least 1000 follow the decimal text
      of its thousands. */
  lemma DecimalThousands(n: nat)
    requires n >= 1000
    ensures Decimal(n) == Decimal(n / 10 / 10 / 10) + [DigitChar(n / 10 / 10 % 10), DigitChar(n / 10 % 10), DigitChar(n % 10)]
  {
    var m := n / 10;
    var k := m / 10;
    assert m >= 10 && k >= 10;
    calc {
      Decimal(n);
      Decimal(m) + [DigitChar(n % 10)];
      Decimal(k) + [DigitChar(m % 10)] + [DigitChar(n % 10)];
      Decimal(k / 10) + [DigitChar(k % 10)] + [DigitChar(m % 10)] + [DigitChar(n % 10)];
    }
  }

  /** Groups of three digits separated by commas. */
  function Grouped(n: nat): (s: string)
    ensures WellGrouped(s)
    ensures Uncomma(s) == Decimal(n)
    ensures forall i :: 0 <= i < |s| ==> IsNumeralChar(s[i])
  {
    if n < 1000 then
      var s := Decimal(n);
      UncommaDigits(s);
      s
    else
      var head := Grouped(n / 10 / 10 / 10);
      var tail := [DigitChar(n / 10 / 10 % 10), DigitChar(n / 10 % 10), DigitChar(n % 10)];
      GroupStep(head, tail);
      DecimalThousands(n);
      head + "," + tail
  }

  /** One more group of three digits keeps the text well grouped and appends
      those digits to its value. */
  lemma GroupStep(head: string, tail: string)
    requires WellGrouped(head) && (forall i :: 0 <= i < |head| ==> IsNumeralChar(head[i]))
    requires |tail| == 3 && AllDigits(tail)
    ensures var s := head + "," + tail;
            && WellGrouped(s)
            && Uncomma(s) == Uncomma(head) + tail
            && forall i :: 0 <= i < |s| ==> IsNumeralChar(s[i])
  {
    var s := head + "," + tail;
    assert s[|s| - 3..] == tail && s[..|s| - 4] == head && s[|s| - 4] == ',';
    UncommaGroup(head, tail);
  }

  lemma UncommaGroup(head: string, tail: string)
    requires AllDigits(tail)
    ensures Uncomma(head + "," + tail) == Uncomma(head) + tail
  {
    UncommaAppend(head + ",", tail);
    UncommaAppend(head, ",");
    assert Uncomma(",") == Uncomma([]) + [];
    UncommaDigits(tail);
  }

  /** Removing commas leaves a string of digits as it is. */
  lemma {:induction false} UncommaDigits(s: string)
    requires AllDigits(s)
    ensures Uncomma(s) == s
  {
    if s != [] {
      var p := s[..|s| - 1];
      assert AllDigits(p);
      UncommaDigits(p);
      assert s == p + [s[|s| - 1]];
    }
  }

  /** `amount.toLocaleString()` for a whole amount, in the en-US format: a minus
      exactly for a negative amount, then the grouped digits of its magnitude. */
  function LocaleInt(n: int): (s: string)
    ensures |s| >= 1 && (s[0] == '-' <==> n < 0)
    ensures var magnitude := if n < 0 then s[1..] else s;
            WellGrouped(magnitude) && Uncomma(magnitude) == Decimal(if n < 0 then -n else n)
    ensures forall i :: 0 <= i < |s| ==> IsNumeralChar(s[i])
  {
    if n < 0 then
      var g := Grouped(-n);
      var s := "-" + g;
      assert s[1..] == g;
      s
    else
      var s := Grouped(n);
      assert s[0] != '-' by { assert IsDigitChar(s[0]) by { GroupedStartsWithDigit(s); } }
      s
  }

  lemma {:induction false} GroupedStartsWithDigit(s: string)
    requires WellGrouped(s)
    ensures s != [] && IsDigitChar(s[0])
    decreases |s|
  {
    if !(1 <= |s| <= 3 && AllDigits(s)) {
      var p := s[..|s| - 4];
      GroupedStartsWithDigit(p);
      assert s[0] == p[0];
    }
  }

  /** `formatCurrency(amount, showBoth)`. */
  function FormatCurrency(env: BrandEnv, amount: int, showBoth: bool): (s: string)
    ensures !IsFrontera(env) ==> s == "$" + LocaleInt(amount)
    ensures !IsFrontera(env) ==> |s| >= 2 && s[0] == '$' && forall i :: 1 <= i < |s| ==> IsNumeralChar(s[i])
    ensures IsFrontera(env) && !showBoth ==> s == "$" + LocaleInt(amount) + " USD"
    ensures IsFrontera(env) && showBoth ==>
              s == "$" + LocaleInt(amount) + " USD / $" + LocaleInt(20 * amount) + " MXN"
  {
    if DetectBrand(env) == "frontera" then
      var mxn := amount * 20;
      if showBoth then "$" + LocaleInt(amount) + " USD / $" + LocaleInt(mxn) + " MXN"
      else "$" + LocaleInt(amount) + " USD"
    else
      "$" + LocaleInt(amount)
  }

  /** `getComplianceBadges()`: the resolved record's `compliance` list. */
  function GetComplianceBadges(env: BrandEnv): (badges: Option<JValue>)
    ensures badges == Walk(LoadBrandConfig(None, env), ["compliance"])
    ensures badges == Some(if IsFrontera(env) then FronteraBadges else CapitalBadges)
  {
    var config := LoadBrandConfig(None, env);
    FieldOfFirst(FronteraConfig.fields, "compliance", 5);
    FieldOfFirst(CapitalConfig.fields, "compliance", 5);
    Prop(config, "compliance")
  }
}
