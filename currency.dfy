/** Currency-code sanitisation, validation and detection of the shopper's
    currency (CPB_Currency / CPBWOO_Currency). */
module Currency {
  import opened Php
  import opened WordPress
  import opened Plugins

  const BaseCurrency: string := "USD"

  /** The codes accepted when WooCommerce's currency table is not available. */
  const CommonCurrencies: seq<string> := [
    "USD", "EUR", "GBP", "JPY", "AUD", "CAD", "CHF", "CNY", "SEK", "NZD",
    "MXN", "SGD", "HKD", "NOK", "TRY", "RUB", "INR", "BRL", "ZAR", "KRW"
  ]

  predicate IsAlnum(c: char) { IsUpper(c) || IsLower(c) || IsDigit(c) }

  predicate ThreeUpper(s: string) { |s| == 3 && IsUpper(s[0]) && IsUpper(s[1]) && IsUpper(s[2]) }

  /** `preg_match('/^[A-Z]{3}$/', $s)`: PCRE's `$` also matches before a final newline. */
  predicate MatchesCodePattern(s: string)
  {
    ThreeUpper(s) || (|s| == 4 && ThreeUpper(s[..3]) && s[3] == '\n')
  }

  /** The text sanitize_currency_code works on before truncation: WordPress's
      sanitize_text_field when it exists, else only the ASCII letters and digits. */
  function CleanCode(wp: Wp, hasTextField: bool, s: string): string
  {
    if hasTextField then SanitizeTextField(wp, Str(s)) else Filter(s, IsAlnum)
  }

  /** sanitize_currency_code: null for empty or non-string input, otherwise the
      upper-cased first three characters of the cleaned text, or null if there
      are fewer than three. */
  function SanitizeCurrencyCode(wp: Wp, hasTextField: bool, v: Value): (r: Option<string>)
    ensures Empty(v) || !v.Str? ==> r == None
    ensures r.Some? ==> v.Str? && |r.value| == 3 && forall i :: 0 <= i < 3 ==> !IsLower(r.value[i])
    ensures v.Str? && !Empty(v) ==> (r.Some? <==> |CleanCode(wp, hasTextField, v.s)| >= 3)
    ensures r.Some? ==> r.value == ToUpper(CleanCode(wp, hasTextField, v.s)[..3])
  {
    if Empty(v) || !v.Str? then None
    else
      var code := ToUpper(Prefix(CleanCode(wp, hasTextField, v.s), 3));
      if |code| == 3 then Some(code) else None
  }

  /** The sanitised code as the PHP value the next step receives (null or a string). */
  function AsValue(c: Option<string>): Value
  {
    match c
    case None => Null
    case Some(s) => Str(s)
  }

  /** is_valid_currency_code. `supported` holds the keys of get_woocommerce_currencies()
      when that function exists; otherwise the fixed list is used. */
  predicate IsValidCurrencyCode(v: Value, supported: Option<set<string>>)
    ensures IsValidCurrencyCode(v, supported) ==> v.Str? && 3 <= |v.s| <= 4 && ThreeUpper(v.s[..3])
    ensures supported.None? ==> (IsValidCurrencyCode(v, supported) <==> v.Str? && v.s in CommonCurrencies)
  {
    CommonCurrenciesAreThreeLetters();
    && !Empty(v) && v.Str?
    && MatchesCodePattern(v.s)
    && (match supported
        case Some(table) => v.s in table
        case None => v.s in CommonCurrencies)
  }

  /** Every code of the fixed list is exactly three upper-case letters. */
  lemma CommonCurrenciesAreThreeLetters()
    ensures forall c :: c in CommonCurrencies ==> ThreeUpper(c)
  {
  }

  /** Without WooCommerce's table, a valid code is exactly three upper-case letters
      from the fixed list; with it, a valid code matches the pattern and is a key of the table. */
  lemma {:induction false} ValidCodeShape(v: Value, supported: Option<set<string>>)
    requires IsValidCurrencyCode(v, supported)
    ensures v.Str? && MatchesCodePattern(v.s)
    ensures supported.None? ==> ThreeUpper(v.s) && v.s in CommonCurrencies
    ensures supported.Some? ==> v.s in supported.value
  {
    CommonCurrenciesAreThreeLetters();
  }

  /** A sanitised code is always three characters, so the newline form of the
      pattern never applies to it: valid means three upper-case letters. */
  lemma {:induction false} SanitizedValidIsThreeLetters(wp: Wp, hasTextField: bool, v: Value, supported: Option<set<string>>)
    requires IsValidCurrencyCode(AsValue(SanitizeCurrencyCode(wp, hasTextField, v)), supported)
    ensures ThreeUpper(SanitizeCurrencyCode(wp, hasTextField, v).value)
  {
  }

  /** Without sanitize_text_field the fallback clean-up keeps only letters and digits,
      so a sanitised code is made of upper-case letters and digits. */
  lemma {:induction false} ManualSanitizeAlphanumeric(wp: Wp, v: Value, i: int)
    requires SanitizeCurrencyCode(wp, false, v).Some? && 0 <= i < 3
    ensures IsUpper(SanitizeCurrencyCode(wp, false, v).value[i]) || IsDigit(SanitizeCurrencyCode(wp, false, v).value[i])
  {
    var clean := Filter(v.s, IsAlnum);
    assert IsAlnum(clean[i]);
  }

  /* ---------------------------------------------------------------------
     The byte reading of sanitize_currency_code
     --------------------------------------------------------------------- */

  /** The UTF-8 bytes of one character. */
  function Utf8Char(c: char): (b: seq<int>)
    ensures |b| >= 1
    ensures (c as int) < 0x80 ==> b == [c as int]
    ensures (c as int) >= 0x80 ==> forall i :: 0 <= i < |b| ==> b[i] >= 0x80
  {
    var n := c as int;
    if n < 0x80 then [n]
    else if n < 0x800 then [0xC0 + n / 0x40, 0x80 + n % 0x40]
    else if n < 0x1_0000 then [0xE0 + n / 0x1000, 0x80 + n / 0x40 % 0x40, 0x80 + n % 0x40]
    else [0xF0 + n / 0x4_0000, 0x80 + n / 0x1000 % 0x40, 0x80 + n / 0x40 % 0x40, 0x80 + n % 0x40]
  }

  /** The bytes PHP holds for a string. */
  function Utf8(s: string): (b: seq<int>)
    ensures |b| >= |s|
  {
    if s == [] then [] else Utf8Char(s[0]) + Utf8(s[1..])
  }

  /** `strtoupper` on one byte: ASCII letters only. */
  function UpperByte(b: int): int { if 97 <= b <= 122 then b - 32 else b }

  /** sanitize_currency_code as PHP executes it: `substr` and `strlen` count
      bytes, so a cleaned text of one three-byte character passes the length test. */
  function SanitizeCurrencyBytes(wp: Wp, hasTextField: bool, v: Value): (r: Option<seq<int>>)
    ensures Empty(v) || !v.Str? ==> r == None
    ensures v.Str? && !Empty(v) ==> (r.Some? <==> |Utf8(CleanCode(wp, hasTextField, v.s))| >= 3)
    ensures r.Some? ==> v.Str? && r.value == UpperHead(Utf8(CleanCode(wp, hasTextField, v.s)))
  {
    if Empty(v) || !v.Str? then None
    else
      var bytes := Utf8(CleanCode(wp, hasTextField, v.s));
      var head := if |bytes| < 3 then bytes else bytes[..3];
      var code := seq(|head|, i requires 0 <= i < |head| => UpperByte(head[i]));
      if |code| == 3 then Some(code) else None
  }

  /** The first three bytes, upper-cased. */
  function UpperHead(bytes: seq<int>): (c: seq<int>)
    requires |bytes| >= 3
    ensures |c| == 3 && forall i :: 0 <= i < 3 ==> c[i] == UpperByte(bytes[i])
  {
    [UpperByte(bytes[0]), UpperByte(bytes[1]), UpperByte(bytes[2])]
  }

  /** is_valid_currency_code on a byte string (null as None): `^[A-Z]{3}$`
      over bytes, with PCRE's optional final newline, and the bytes of a supported code. */
  predicate IsValidCurrencyBytes(c: Option<seq<int>>, supported: Option<set<string>>)
  {
    && c.Some?
    && (|c.value| == 3 || (|c.value| == 4 && c.value[3] == 10))
    && (forall i :: 0 <= i < 3 ==> 65 <= c.value[i] <= 90)
    && match supported
       case Some(table) => exists t :: t in table && Utf8(t) == c.value
       case None => exists t :: t in CommonCurrencies && Utf8(t) == c.value
  }

  /** An ASCII string's bytes are its character codes. */
  lemma {:induction false} Utf8Ascii(s: string)
    requires forall i :: 0 <= i < |s| ==> (s[i] as int) < 0x80
    ensures Utf8(s) == seq(|s|, i requires 0 <= i < |s| => s[i] as int)
  {
    if s != [] {
      Utf8Ascii(s[1..]);
    }
  }

  /** Leading ASCII bytes come from leading ASCII characters. */
  lemma {:induction false} Utf8AsciiPrefix(s: string, k: nat)
    requires k <= |Utf8(s)| && forall i :: 0 <= i < k ==> Utf8(s)[i] < 0x80
    ensures k <= |s| && forall i :: 0 <= i < k ==> Utf8(s)[i] == s[i] as int
  {
    if k > 0 {
      assert Utf8(s)[0] == Utf8Char(s[0])[0];
      assert Utf8Char(s[0]) == [s[0] as int];
      assert Utf8(s) == [s[0] as int] + Utf8(s[1..]);
      assert forall i :: 0 <= i < k - 1 ==> Utf8(s[1..])[i] == Utf8(s)[i + 1];
      Utf8AsciiPrefix(s[1..], k - 1);
    }
  }

  /** Leading ASCII characters give leading ASCII bytes. */
  lemma {:induction false} AsciiPrefixUtf8(s: string, k: nat)
    requires k <= |s| && forall i :: 0 <= i < k ==> (s[i] as int) < 0x80
    ensures k <= |Utf8(s)| && forall i :: 0 <= i < k ==> Utf8(s)[i] == s[i] as int
  {
    if k > 0 {
      assert Utf8(s) == [s[0] as int] + Utf8(s[1..]);
      AsciiPrefixUtf8(s[1..], k - 1);
    }
  }

  /** An upper-cased byte head of three capital letters comes from three ASCII
      letters, and is the bytes of their upper-cased code. */
  lemma {:induction false} UpperHeadLetters(clean: string)
    requires |Utf8(clean)| >= 3 && forall i :: 0 <= i < 3 ==> 65 <= UpperHead(Utf8(clean))[i] <= 90
    ensures |clean| >= 3 && ThreeUpper(ToUpper(clean[..3]))
    ensures UpperHead(Utf8(clean)) == Utf8(ToUpper(clean[..3]))
  {
    var c := UpperHead(Utf8(clean));
    assert forall i :: 0 <= i < 3 ==> Utf8(clean)[i] < 0x80 by {
      forall i | 0 <= i < 3 ensures Utf8(clean)[i] < 0x80 {
        assert 65 <= UpperByte(Utf8(clean)[i]) <= 90;
      }
    }
    Utf8AsciiPrefix(clean, 3);
    var code := ToUpper(clean[..3]);
    assert forall i :: 0 <= i < 3 ==> code[i] as int == c[i] by {
      forall i | 0 <= i < 3 ensures code[i] as int == c[i] {
        assert code[i] == UpperChar(clean[..3][i]);
      }
    }
    Utf8Ascii(code);
  }

  /** A valid upper-cased byte head comes from three ASCII letters, whose
      character code is valid and has exactly those bytes. */
  lemma {:induction false} BytesValidToChars(clean: string, supported: Option<set<string>>)
    requires |Utf8(clean)| >= 3 && IsValidCurrencyBytes(Some(UpperHead(Utf8(clean))), supported)
    ensures |clean| >= 3
    ensures IsValidCurrencyCode(Str(ToUpper(clean[..3])), supported)
    ensures UpperHead(Utf8(clean)) == Utf8(ToUpper(clean[..3]))
  {
    UpperHeadLetters(clean);
    var code := ToUpper(clean[..3]);
    InSupported(code, supported);
  }

  /** A three-letter code whose bytes belong to a supported code is that code. */
  lemma {:induction false} InSupported(code: string, supported: Option<set<string>>)
    requires ThreeUpper(code) && IsValidCurrencyBytes(Some(Utf8(code)), supported)
    ensures IsValidCurrencyCode(Str(code), supported)
  {
    Utf8Ascii(code);
    match supported
    case Some(table) =>
      var t :| t in table && Utf8(t) == Utf8(code);
      SameAsciiBytes(t, code);
    case None =>
      var t :| t in CommonCurrencies && Utf8(t) == Utf8(code);
      SameAsciiBytes(t, code);
  }

  /** Two strings with the same three ASCII bytes are the same string. */
  lemma {:induction false} SameAsciiBytes(t: string, code: string)
    requires |Utf8(t)| == 3 && |code| == 3
    requires forall i :: 0 <= i < 3 ==> Utf8(t)[i] < 0x80 && Utf8(t)[i] == code[i] as int
    ensures t == code
  {
    Utf8AsciiPrefix(t, 3);
    assert |t| == 3;
    assert forall i :: 0 <= i < 3 ==> t[i] == code[i];
  }

  /** A valid character code is three ASCII letters, whose bytes are the code's. */
  lemma {:induction false} CharsValidToBytes(clean: string, supported: Option<set<string>>)
    requires |clean| >= 3 && IsValidCurrencyCode(Str(ToUpper(clean[..3])), supported)
    ensures |Utf8(clean)| >= 3
    ensures UpperHead(Utf8(clean)) == Utf8(ToUpper(clean[..3]))
    ensures IsValidCurrencyBytes(Some(UpperHead(Utf8(clean))), supported)
  {
    var code := ToUpper(clean[..3]);
    assert ThreeUpper(code);
    LettersHeadBytes(clean);
    CodeBytesValid(code, supported);
  }

  /** Three leading characters that upper-case to letters have the bytes of that code. */
  lemma {:induction false} LettersHeadBytes(clean: string)
    requires |clean| >= 3 && ThreeUpper(ToUpper(clean[..3]))
    ensures |Utf8(clean)| >= 3
    ensures UpperHead(Utf8(clean)) == Utf8(ToUpper(clean[..3]))
  {
    var code := ToUpper(clean[..3]);
    assert forall i :: 0 <= i < 3 ==> (clean[i] as int) < 0x80 by {
      forall i | 0 <= i < 3 ensures (clean[i] as int) < 0x80 {
        assert code[i] == UpperChar(clean[..3][i]);
      }
    }
    AsciiPrefixUtf8(clean, 3);
    Utf8Ascii(code);
    assert UpperHead(Utf8(clean)) == Utf8(code) by {
      forall i | 0 <= i < 3 ensures UpperHead(Utf8(clean))[i] == Utf8(code)[i] {
        assert code[i] == UpperChar(clean[..3][i]);
      }
    }
  }

  /** The bytes of a valid three-letter code pass the byte validation. */
  lemma {:induction false} CodeBytesValid(code: string, supported: Option<set<string>>)
    requires ThreeUpper(code) && IsValidCurrencyCode(Str(code), supported)
    ensures IsValidCurrencyBytes(Some(Utf8(code)), supported)
  {
    Utf8Ascii(code);
    match supported
    case Some(table) =>
      assert code in table && Utf8(code) == Utf8(code);
    case None =>
      assert code in CommonCurrencies && Utf8(code) == Utf8(code);
  }

  /** Reading the cleaned text as UTF-8 bytes, as PHP does, changes nothing that
      validation can see: the byte result is valid exactly when the character
      result is, and then it is the bytes of that code. Non-valid results may
      differ; see EuroSignDiffers. */
  lemma {:induction false} ByteReadingAgrees(wp: Wp, hasTextField: bool, v: Value, supported: Option<set<string>>)
    ensures IsValidCurrencyBytes(SanitizeCurrencyBytes(wp, hasTextField, v), supported)
        <==> IsValidCurrencyCode(AsValue(SanitizeCurrencyCode(wp, hasTextField, v)), supported)
    ensures IsValidCurrencyCode(AsValue(SanitizeCurrencyCode(wp, hasTextField, v)), supported) ==>
      SanitizeCurrencyBytes(wp, hasTextField, v) == Some(Utf8(SanitizeCurrencyCode(wp, hasTextField, v).value))
  {
    var b := SanitizeCurrencyBytes(wp, hasTextField, v);
    var m := SanitizeCurrencyCode(wp, hasTextField, v);
    if Empty(v) || !v.Str? {
      return;
    }
    var clean := CleanCode(wp, hasTextField, v.s);
    if IsValidCurrencyBytes(b, supported) {
      BytesValidToChars(clean, supported);
    }
    if IsValidCurrencyCode(AsValue(m), supported) {
      CharsValidToBytes(clean, supported);
    }
  }

  /** "€" is three bytes: PHP's reading keeps it as a (non-valid) code, the
      character reading gives null. */
  lemma EuroSignDiffers(wp: Wp, supported: Option<set<string>>)
    requires wp.textFilter("€") == "€"
    ensures SanitizeCurrencyCode(wp, true, Str("€")) == None
    ensures SanitizeCurrencyBytes(wp, true, Str("€")) == Some([0xE2, 0x82, 0xAC])
    ensures !IsValidCurrencyBytes(SanitizeCurrencyBytes(wp, true, Str("€")), supported)
  {
    assert CleanCode(wp, true, "€") == "€";
    assert ('€' as int) == 0x20AC;
    assert Utf8Char('€') == [0xE2, 0x82, 0xAC];
    assert Utf8("€") == Utf8Char('€') + Utf8("");
  }

  /* ---------------------------------------------------------------------
     Detection of the current currency
     --------------------------------------------------------------------- */

  /** The result of running a third-party filter hook: it may throw. */
  datatype Probe = Threw | Gave(v: Value)

  /** WC()->session->get(...) for the four session keys (null when missing). */
  datatype Session = Session(chosen: Value, client: Value, woocs: Value, wmc: Value)

  /** Everything get_current_currency reads. */
  datatype Sources = Sources(
    wooLoaded: bool,                  // function_exists('get_woocommerce_currency')
    filtersLoaded: bool,              // function_exists('apply_filters')
    hasTextField: bool,               // function_exists('sanitize_text_field')
    wpml: Probe,                      // apply_filters('wcml_price_currency', null)
    woocs: Value,                     // $WOOCS->current_currency; null when $WOOCS is no object or has no such property
    session: Option<Session>,         // None when WC() or its session is missing
    cookieWoocs: Value,               // $_COOKIE['woocs_current_currency'], null when absent
    cookieWmc: Value,                 // $_COOKIE['wmc_current_currency'], null when absent
    aelia: Probe,                     // apply_filters('wc_aelia_cs_selected_currency', null)
    default: Value,                   // get_woocommerce_currency()
    supported: Option<set<string>>    // keys of get_woocommerce_currencies(), when that function exists
  )

  /** PHP's `a ?: b ?: c ?: d`: the first truthy operand, else the last one. */
  function Elvis(s: Session): (r: Value)
    ensures Truthy(s.chosen) ==> r == s.chosen
    ensures !Truthy(s.chosen) && Truthy(s.client) ==> r == s.client
    ensures !Truthy(s.chosen) && !Truthy(s.client) && Truthy(s.woocs) ==> r == s.woocs
    ensures !Truthy(s.chosen) && !Truthy(s.client) && !Truthy(s.woocs) ==> r == s.wmc
  {
    if Truthy(s.chosen) then s.chosen
    else if Truthy(s.client) then s.client
    else if Truthy(s.woocs) then s.woocs
    else s.wmc
  }

  function Sanitize(wp: Wp, src: Sources, v: Value): Value
  {
    AsValue(SanitizeCurrencyCode(wp, src.hasTextField, v))
  }

  function WpmlCandidate(wp: Wp, src: Sources): Value
  {
    if src.filtersLoaded && src.wpml.Gave? then Sanitize(wp, src, src.wpml.v) else Null
  }

  function WoocsCandidate(wp: Wp, src: Sources): Value
  {
    if Truthy(src.woocs) then Sanitize(wp, src, src.woocs) else Null
  }

  function SessionCandidate(wp: Wp, src: Sources): Value
  {
    match src.session
    case None => Null
    case Some(s) => Sanitize(wp, src, Elvis(s))
  }

  /** A cookie value as the code receives it: sanitize_text_field(wp_unslash(...)). */
  function CookieText(wp: Wp, v: Value): Value
  {
    Str(SanitizeTextField(wp, wp.unslash(v)))
  }

  function CookieCandidate(wp: Wp, src: Sources): Value
  {
    if Truthy(src.cookieWoocs) then Sanitize(wp, src, CookieText(wp, src.cookieWoocs))
    else if Truthy(src.cookieWmc) then Sanitize(wp, src, CookieText(wp, src.cookieWmc))
    else Null
  }

  /** Aelia's code counts only when it differs from the store default. */
  function AeliaCandidate(wp: Wp, src: Sources): Value
  {
    if src.filtersLoaded && src.aelia.Gave? then
      var c := Sanitize(wp, src, src.aelia.v);
      if c != src.default then c else Null
    else Null
  }

  /** True when a hook throws out of CPBWOO_Currency, which has no try/catch. */
  predicate HookThrows(src: Sources)
  {
    src.wooLoaded && src.filtersLoaded && (src.wpml.Threw? || src.aelia.Threw?)
  }

  predicate Valid(src: Sources, v: Value) { IsValidCurrencyCode(v, src.supported) }

  /** get_current_currency, as the early-return chain of the source. None means
      that an exception left the function, which only CPBWOO_Currency lets happen:
      CPB_Currency catches it and moves on to the next source. */
  function DetectCurrency(p: Plugin, wp: Wp, src: Sources): (r: Option<string>)
    ensures r.Some? ==> r.value == BaseCurrency || IsValidCurrencyCode(Str(r.value), src.supported)
    ensures !src.wooLoaded ==> r == Some(BaseCurrency)
    ensures r.None? <==> p == Cpbwoo && src.wooLoaded && src.filtersLoaded && (src.wpml.Threw? || (src.aelia.Threw? && !Valid(src, WpmlCandidate(wp, src)) && !Valid(src, WoocsCandidate(wp, src)) && !Valid(src, SessionCandidate(wp, src)) && !Valid(src, CookieCandidate(wp, src))))
  {
    if !src.wooLoaded then Some(BaseCurrency)
    else if p == Cpbwoo && src.filtersLoaded && src.wpml.Threw? then None
    else if Valid(src, WpmlCandidate(wp, src)) then Some(WpmlCandidate(wp, src).s)
    else if Valid(src, WoocsCandidate(wp, src)) then Some(WoocsCandidate(wp, src).s)
    else if Valid(src, SessionCandidate(wp, src)) then Some(SessionCandidate(wp, src).s)
    else if Valid(src, CookieCandidate(wp, src)) then Some(CookieCandidate(wp, src).s)
    else if p == Cpbwoo && src.filtersLoaded && src.aelia.Threw? then None
    else if Valid(src, AeliaCandidate(wp, src)) then Some(AeliaCandidate(wp, src).s)
    else if Valid(src, src.default) then Some(src.default.s)
    else Some(BaseCurrency)
  }

  /* ---------------------------------------------------------------------
     An independent statement of the priority rule
     --------------------------------------------------------------------- */

  /** The six sources in priority order. */
  function Candidates(wp: Wp, src: Sources): (cs: seq<Value>)
    ensures |cs| == 6
  {
    [WpmlCandidate(wp, src), WoocsCandidate(wp, src), SessionCandidate(wp, src),
     CookieCandidate(wp, src), AeliaCandidate(wp, src), src.default]
  }

  /** The position of the first valid code in `cs`. */
  function FirstValid(src: Sources, cs: seq<Value>): (r: Option<nat>)
    ensures r.Some? ==> r.value < |cs| && Valid(src, cs[r.value])
    ensures r.Some? ==> forall j :: 0 <= j < r.value ==> !Valid(src, cs[j])
    ensures r.None? ==> forall j :: 0 <= j < |cs| ==> !Valid(src, cs[j])
  {
    if cs == [] then None
    else if Valid(src, cs[0]) then Some(0)
    else
      match FirstValid(src, cs[1..])
      case None => None
      case Some(i) => Some(i + 1)
  }

  /** With no exception, the detected currency is the first valid source in
      priority order, or USD when there is none (or WooCommerce is missing). */
  lemma {:induction false} DetectionIsFirstValid(p: Plugin, wp: Wp, src: Sources)
    requires p == Cpb || !HookThrows(src)
    ensures DetectCurrency(p, wp, src) ==
      if !src.wooLoaded then Some(BaseCurrency)
      else match FirstValid(src, Candidates(wp, src))
        case None => Some(BaseCurrency)
        case Some(i) => Some(Candidates(wp, src)[i].s)
  {
    var cs := Candidates(wp, src);
    var f := FirstValid(src, cs);
    if src.wooLoaded {
      if f.Some? {
        var i := f.value;
        assert forall j :: 0 <= j < i ==> !Valid(src, cs[j]);
        if i == 0 {} else if i == 1 {
          assert !Valid(src, cs[0]);
        } else if i == 2 {
          assert !Valid(src, cs[0]) && !Valid(src, cs[1]);
        } else if i == 3 {
          assert !Valid(src, cs[0]) && !Valid(src, cs[1]) && !Valid(src, cs[2]);
        } else if i == 4 {
          assert !Valid(src, cs[0]) && !Valid(src, cs[1]) && !Valid(src, cs[2]) && !Valid(src, cs[3]);
        } else {
          assert !Valid(src, cs[0]) && !Valid(src, cs[1]) && !Valid(src, cs[2]) && !Valid(src, cs[3]) && !Valid(src, cs[4]);
        }
      } else {
        assert forall j :: 0 <= j < 6 ==> !Valid(src, cs[j]);
        assert !Valid(src, cs[0]) && !Valid(src, cs[1]) && !Valid(src, cs[2]) && !Valid(src, cs[3]) && !Valid(src, cs[4]) && !Valid(src, cs[5]);
      }
    }
  }

  /** When no hook throws, the two plugins detect the same currency. */
  lemma {:induction false} PluginsAgree(wp: Wp, src: Sources)
    requires !HookThrows(src)
    ensures DetectCurrency(Cpbwoo, wp, src) == DetectCurrency(Cpb, wp, src)
  {
    DetectionIsFirstValid(Cpb, wp, src);
    DetectionIsFirstValid(Cpbwoo, wp, src);
  }

  /** Only the first non-empty session value is considered: once `chosen_currency`
      is non-empty, the other session keys cannot influence the result. */
  lemma {:induction false} SessionFirstNonEmptyShadows(wp: Wp, src: Sources, client: Value, woocs: Value, wmc: Value)
    requires src.session.Some? && Truthy(src.session.value.chosen)
    ensures SessionCandidate(wp, src) ==
            SessionCandidate(wp, src.(session := Some(src.session.value.(client := client, woocs := woocs, wmc := wmc))))
  {
  }

  /** In particular an invalid non-empty `chosen_currency` blocks a valid `client_currency`. */
  lemma {:induction false} InvalidChosenBlocksClient(wp: Wp, src: Sources)
    requires src.session.Some? && Truthy(src.session.value.chosen)
    requires !Valid(src, Sanitize(wp, src, src.session.value.chosen))
    ensures !Valid(src, SessionCandidate(wp, src))
  {
  }

  /** A non-empty woocs cookie shadows the wmc cookie, even when it is invalid. */
  lemma {:induction false} WoocsCookieShadowsWmc(wp: Wp, src: Sources, wmc: Value)
    requires Truthy(src.cookieWoocs)
    ensures CookieCandidate(wp, src) == CookieCandidate(wp, src.(cookieWmc := wmc))
  {
  }

  /** Aelia never yields the store default: if Aelia reports the default, the
      result is the default anyway (once the earlier sources are all invalid). */
  lemma {:induction false} AeliaEqualToDefaultIsSkipped(p: Plugin, wp: Wp, src: Sources)
    requires src.wooLoaded && src.filtersLoaded && src.aelia.Gave?
    requires Sanitize(wp, src, src.aelia.v) == src.default
    ensures AeliaCandidate(wp, src) == Null
    ensures !Valid(src, WpmlCandidate(wp, src)) && !Valid(src, WoocsCandidate(wp, src))
            && !Valid(src, SessionCandidate(wp, src)) && !Valid(src, CookieCandidate(wp, src))
            && !(p == Cpbwoo && src.wpml.Threw?)
            ==> DetectCurrency(p, wp, src) == Some(if Valid(src, src.default) then src.default.s else BaseCurrency)
  {
  }
}
