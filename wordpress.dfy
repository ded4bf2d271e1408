/** The two plugins of the repository: `custom-product-builder` (classes CPB_*)
    and `cpb-custom-product-builder` (classes CPBWOO_*). Most of their code is
    the same; where it differs the model takes the plugin as a parameter. */
module Plugins {
  datatype Plugin = Cpb | Cpbwoo
}

/** WordPress and WooCommerce helpers that the plugins call but do not define.
    Each one is an arbitrary total function: nothing is assumed about what it
    returns beyond its type. */
module WordPress {
  import opened Php

  datatype Wp = Wp(
    textFilter: string -> string,      // the text clean-up sanitize_text_field applies to a string
    sanitizeKey: string -> string,     // sanitize_key
    absint: Value -> nat,              // absint
    intval: Value -> int,              // intval
    floatval: Value -> real,           // floatval
    floatText: real -> string,         // the string form of a float
    unslash: Value -> Value,           // wp_unslash
    mapDeepSanitize: Value -> Value,   // map_deep(wp_unslash($v), 'sanitize_text_field')
    jsonDecode: Value -> Value,        // json_decode($v, true)
    jsonEncode: Value -> string,       // json_encode / wp_json_encode
    escHtml: string -> string,         // esc_html
    escUrl: string -> string,          // esc_url
    escAttr: string -> string,         // esc_attr
    validUrl: Value -> bool,           // filter_var($v, FILTER_VALIDATE_URL) !== false
    rawUrlEncode: string -> string,    // rawurlencode
    parseUrl: string -> Value          // parse_url: an array of components, or false
  )

  /** `(string)$v`. */
  function StrCast(wp: Wp, v: Value): string
  {
    match v
    case Null => ""
    case Bool(b) => if b then "1" else ""
    case Int(i) => IntToString(i)
    case Float(f) => wp.floatText(f)
    case Str(s) => s
    case Arr(_) => "Array"
  }

  /** sanitize_text_field: arrays give "", other values are cast to a string and cleaned. */
  function SanitizeTextField(wp: Wp, v: Value): string
  {
    if v.Arr? then "" else wp.textFilter(StrCast(wp, v))
  }

  /** The character class sanitize_key keeps: lower-case letters, digits, '_' and '-'. */
  predicate KeyChar(c: char) { IsLower(c) || IsDigit(c) || c == '_' || c == '-' }

  /** WordPress core's sanitize_key (lower-case, then drop every other character);
      used only to instantiate `Wp.sanitizeKey` in worked examples. */
  function CoreSanitizeKey(key: string): (r: string)
    ensures forall i :: 0 <= i < |r| ==> KeyChar(r[i])
  {
    Filter(ToLower(key), KeyChar)
  }
}
