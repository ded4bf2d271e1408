/** The helpers of the main CPB plugin class (CPB_Lite): product detection,
    the storefront script URL, lifecycle and payment notifications, the weekly
    subscription check and the XOR fallback of the store-data encryption. */
module MainPlugin {
  import opened Php
  import opened WordPress

  const Version: string := "1.1.0"
  /** The default initializer, https://app.thecustomproductbuilder.com/cpb/storefront/initializer.js?platform=woocommerce. */
  const ScriptUrl: string := ScriptOrigin + ScriptPath + ScriptQuery
  const ScriptOrigin: string := "https://app.thecustomproductbuilder.com"
  const ScriptPath: string := "/cpb/storefront/initializer.js"
  const ScriptQuery: string := "?platform=woocommerce"
  const ExternalIdMeta: string := "_cpb_external_product_id"

  /* ---------------------------------------------------------------------
     is_cpb_product
     --------------------------------------------------------------------- */

  /** is_cpb_product. `productId` is the argument, `globalPost` the ID of the
      global `$post` (None when it is empty), `meta(id, key)` what
      get_post_meta($id, $key, true) returns. */
  function IsCpbProduct(productId: Option<int>, globalPost: Option<int>, meta: (int, string) -> Value): (r: bool)
    ensures productId.Some? ==> (r <==> MarkedCpb(meta, productId.value))
    ensures productId.None? ==> (r <==> globalPost.Some? && MarkedCpb(meta, globalPost.value))
  {
    if productId.None? && globalPost.None? then false
    else
      var id := if productId.Some? then productId.value else globalPost.value;
      !Empty(meta(id, ExternalIdMeta)) || meta(id, "_cpb_enabled") == Str("yes")
  }

  /** The product has a non-empty external ID, or is enabled with exactly 'yes'. */
  predicate MarkedCpb(meta: (int, string) -> Value, id: int)
  {
    !Empty(meta(id, ExternalIdMeta)) || meta(id, "_cpb_enabled") == Str("yes")
  }

  /** An external ID of "0" counts as absent, and only the exact string 'yes' enables a product. */
  lemma IsCpbProductEdgeCases(id: int, meta: (int, string) -> Value)
    requires meta(id, ExternalIdMeta) == Str("0") && meta(id, "_cpb_enabled") == Str("Yes")
    ensures !IsCpbProduct(Some(id), None, meta)
  {
  }

  /** PHP's `empty()` of a string holds for exactly "" and "0". */
  lemma EmptyString(s: string)
    ensures Empty(Str(s)) <==> s == "" || s == "0"
  {
  }

  /** An external ID that PHP's `empty()` accepts (null, false, 0, 0.0, "", "0" or
      an empty array) leaves the decision to `_cpb_enabled` alone. */
  lemma EmptyExternalIdDefers(productId: Option<int>, globalPost: Option<int>, meta: (int, string) -> Value, id: int)
    requires productId == Some(id) || (productId.None? && globalPost == Some(id))
    requires meta(id, ExternalIdMeta) in {Null, Bool(false), Int(0), Float(0.0), Str(""), Str("0"), Arr([])}
    ensures IsCpbProduct(productId, globalPost, meta) <==> meta(id, "_cpb_enabled") == Str("yes")
  {
  }

  /** Any other external ID marks the product, whatever `_cpb_enabled` says. */
  lemma NonEmptyExternalIdMarks(productId: Option<int>, globalPost: Option<int>, meta: (int, string) -> Value, id: int)
    requires productId == Some(id) || (productId.None? && globalPost == Some(id))
    requires meta(id, ExternalIdMeta) !in {Null, Bool(false), Int(0), Float(0.0), Str(""), Str("0"), Arr([])}
    ensures IsCpbProduct(productId, globalPost, meta)
  {
    var v := meta(id, ExternalIdMeta);
    if v.Str? {
      assert v.s != "" && v.s != "0";
    }
  }

  /* ---------------------------------------------------------------------
     get_shop_name_from_origin
     --------------------------------------------------------------------- */

  /** `preg_replace('/^www\./', '', $host)`. */
  function StripWww(host: string): (r: string)
    ensures host == (if StartsWith(host, "www.") then "www." else "") + r
  {
    if StartsWith(host, "www.") then host[4..] else host
  }

  /** get_shop_name_from_origin: the host of the site URL without a leading "www.". */
  function ShopNameFromOrigin(wp: Wp, siteUrl: string): (r: string)
    ensures var host := StrCast(wp, Coalesce(Index(wp.parseUrl(siteUrl), StrKey("host")), Str("")));
      host == (if StartsWith(host, "www.") then "www." else "") + r
  {
    var host := StrCast(wp, Coalesce(Index(wp.parseUrl(siteUrl), StrKey("host")), Str("")));
    StripWww(host)
  }

  /** A site URL parse_url cannot read (it returns false) gives the empty shop name. */
  lemma UnparsableSiteUrl(wp: Wp, siteUrl: string)
    requires wp.parseUrl(siteUrl) == Bool(false)
    ensures ShopNameFromOrigin(wp, siteUrl) == ""
  {
    assert Index(wp.parseUrl(siteUrl), StrKey("host")) == Null;
    assert StrCast(wp, Str("")) == "";
    assert !StartsWith("", "www.");
  }

  /* ---------------------------------------------------------------------
     get_script_url
     --------------------------------------------------------------------- */

  /** The separator for the next parameter: '?' unless the URL already has one. */
  function Sep(u: string): string
  {
    if Contains(u, "?") then "&" else "?"
  }

  /** `$url .= $separator . $param`. */
  function AddParam(u: string, param: string): (r: string)
    ensures StartsWith(r, u) && EndsWith(r, param) && Contains(r, "?")
  {
    var r := u + Sep(u) + param;
    assert r[..|u|] == u;
    assert r[|r| - |param|..] == param;
    SepLeavesQuestionMark(u, param);
    r
  }

  lemma SepLeavesQuestionMark(u: string, param: string)
    ensures Contains(u + Sep(u) + param, "?")
  {
    var r := u + Sep(u) + param;
    if Contains(u, "?") {
      var i :| 0 <= i <= |u| - 1 && OccursAt(u, "?", i);
      assert r[i..i + 1] == u[i..i + 1];
      assert OccursAt(r, "?", i);
    } else {
      assert r[|u|..|u| + 1] == "?";
      assert OccursAt(r, "?", |u|);
    }
  }

  lemma {:induction false} PrefixContains(u: string, v: string, p: string)
    requires StartsWith(v, u) && Contains(u, p)
    ensures Contains(v, p)
  {
    var i :| 0 <= i <= |u| - |p| && OccursAt(u, p, i);
    assert v[i..i + |p|] == u[i..i + |p|] by {
      assert v[..|u|] == u;
      assert forall j :: i <= j < i + |p| ==> v[j] == v[..|u|][j];
    }
    assert OccursAt(v, p, i);
  }

  /** Once a parameter is added every later separator is '&'. */
  lemma AfterParamAmpersand(u: string, param: string)
    ensures Sep(AddParam(u, param)) == "&"
  {
  }

  /** The base: a valid custom URL option, else the default initializer. */
  function BaseScriptUrl(wp: Wp, customUrl: Value): string
  {
    if !Empty(customUrl) && wp.validUrl(customUrl) then StrCast(wp, customUrl) else ScriptUrl
  }

  /** The external-ID step: nothing when it is empty, the bare ID after an
      existing "external_id=", else a new external_id parameter. */
  function WithExternalId(wp: Wp, base: string, externalId: Value): string
  {
    if Empty(externalId) then base
    else if Contains(base, "external_id=") then base + StrCast(wp, externalId)
    else AddParam(base, "external_id=" + StrCast(wp, externalId))
  }

  /** The shop-name step. */
  function WithShopName(wp: Wp, u: string, shopName: string): string
  {
    if Empty(Str(shopName)) then u else AddParam(u, "platform_shop_name=" + wp.rawUrlEncode(shopName))
  }

  /** The URL get_script_url builds before esc_url: it extends the base, has a
      '?' and ends with the version parameter. */
  function RawScriptUrl(wp: Wp, customUrl: Value, externalId: Value, shopName: string): (r: string)
    ensures StartsWith(r, BaseScriptUrl(wp, customUrl)) && Contains(r, "?") && EndsWith(r, "v=" + Version)
  {
    var base := BaseScriptUrl(wp, customUrl);
    var u := WithExternalId(wp, base, externalId);
    var w := WithShopName(wp, u, shopName);
    var r := AddParam(w, "v=" + Version);
    ExternalIdExtends(wp, base, externalId);
    PrefixTrans(base, u, w);
    PrefixTrans(base, w, r);
    r
  }

  lemma ExternalIdExtends(wp: Wp, base: string, externalId: Value)
    ensures StartsWith(WithExternalId(wp, base, externalId), base)
  {
    if !Empty(externalId) && Contains(base, "external_id=") {
      assert (base + StrCast(wp, externalId))[..|base|] == base;
    }
  }

  lemma PrefixTrans(a: string, b: string, c: string)
    requires StartsWith(b, a) && StartsWith(c, b)
    ensures StartsWith(c, a)
  {
    assert c[..|a|] == c[..|b|][..|a|];
  }

  /** get_script_url. */
  function GetScriptUrl(wp: Wp, customUrl: Value, externalId: Value, shopName: string): (r: string)
    ensures exists u :: r == wp.escUrl(u) && StartsWith(u, BaseScriptUrl(wp, customUrl)) && Contains(u, "?") && EndsWith(u, "v=" + Version)
  {
    wp.escUrl(RawScriptUrl(wp, customUrl, externalId, shopName))
  }

  lemma ScriptUrlHasQuestionMark()
    ensures Contains(ScriptUrl, "?")
  {
    var i := |ScriptOrigin + ScriptPath|;
    assert ScriptUrl[i..i + 1] == ScriptQuery[..1];
    assert OccursAt(ScriptUrl, "?", i);
  }

  lemma ScriptUrlHasNoExternalId()
    ensures !Contains(ScriptUrl, "external_id=")
  {
    assert '_' !in ScriptOrigin && '_' !in ScriptPath && '_' !in ScriptQuery;
    assert '_' !in ScriptUrl;
    forall i | 0 <= i <= |ScriptUrl| - 12
      ensures !OccursAt(ScriptUrl, "external_id=", i)
    {
      assert ScriptUrl[i..i + 12][8] == ScriptUrl[i + 8] != '_';
    }
  }

  /** With the default base every parameter is joined with '&'. */
  lemma DefaultScriptUrlLayout(wp: Wp, customUrl: Value, externalId: Value, shopName: string)
    requires Empty(customUrl) && !Empty(externalId) && !Empty(Str(shopName))
    ensures RawScriptUrl(wp, customUrl, externalId, shopName)
      == ScriptUrl + "&" + ("external_id=" + StrCast(wp, externalId)) + "&" + ("platform_shop_name=" + wp.rawUrlEncode(shopName)) + "&" + ("v=" + Version)
  {
    ScriptUrlHasQuestionMark();
    ScriptUrlHasNoExternalId();
    var e := "external_id=" + StrCast(wp, externalId);
    var n := "platform_shop_name=" + wp.rawUrlEncode(shopName);
    assert BaseScriptUrl(wp, customUrl) == ScriptUrl;
    var u := AddParam(ScriptUrl, e);
    assert WithExternalId(wp, ScriptUrl, externalId) == u == ScriptUrl + "&" + e;
    AfterParamAmpersand(ScriptUrl, e);
    var w := AddParam(u, n);
    assert WithShopName(wp, u, shopName) == w == u + "&" + n;
    AfterParamAmpersand(u, n);
    assert RawScriptUrl(wp, customUrl, externalId, shopName) == w + "&" + ("v=" + Version);
  }

  /** A base without '?' gets '?' before its first parameter and '&' before the others. */
  lemma PlainBaseLayout(wp: Wp, customUrl: Value, externalId: Value, shopName: string)
    requires var base := BaseScriptUrl(wp, customUrl); !Contains(base, "?") && !Contains(base, "external_id=")
    requires !Empty(externalId) && !Empty(Str(shopName))
    ensures RawScriptUrl(wp, customUrl, externalId, shopName) == BaseScriptUrl(wp, customUrl)
      + "?" + ("external_id=" + StrCast(wp, externalId)) + "&" + ("platform_shop_name=" + wp.rawUrlEncode(shopName)) + "&" + ("v=" + Version)
  {
    var base := BaseScriptUrl(wp, customUrl);
    var e := "external_id=" + StrCast(wp, externalId);
    var n := "platform_shop_name=" + wp.rawUrlEncode(shopName);
    var u := AddParam(base, e);
    assert WithExternalId(wp, base, externalId) == u == base + "?" + e;
    AfterParamAmpersand(base, e);
    var w := AddParam(u, n);
    assert WithShopName(wp, u, shopName) == w == u + "&" + n;
    AfterParamAmpersand(u, n);
    assert RawScriptUrl(wp, customUrl, externalId, shopName) == w + "&" + ("v=" + Version);
  }

  /** A base that already contains "external_id=" anywhere receives the bare ID,
      with no separator and no parameter name. */
  lemma ExistingExternalIdParam(wp: Wp, customUrl: Value, externalId: Value, shopName: string)
    requires Contains(BaseScriptUrl(wp, customUrl), "external_id=") && !Empty(externalId)
    ensures StartsWith(RawScriptUrl(wp, customUrl, externalId, shopName), BaseScriptUrl(wp, customUrl) + StrCast(wp, externalId))
  {
    var base := BaseScriptUrl(wp, customUrl);
    var u := base + StrCast(wp, externalId);
    var w := WithShopName(wp, u, shopName);
    var r := RawScriptUrl(wp, customUrl, externalId, shopName);
    assert r == AddParam(w, "v=" + Version);
    assert r[..|w|] == w && w[..|u|] == u;
    assert r[..|u|] == w[..|u|];
  }

  /** An empty external ID adds no external_id text at all. */
  lemma EmptyExternalId(wp: Wp, customUrl: Value, externalId: Value, shopName: string)
    requires Empty(externalId)
    ensures RawScriptUrl(wp, customUrl, externalId, shopName)
      == AddParam(WithShopName(wp, BaseScriptUrl(wp, customUrl), shopName), "v=" + Version)
  {
  }

  /* ---------------------------------------------------------------------
     Lifecycle notifications
     --------------------------------------------------------------------- */

  /** get_lifecycle_notification_url, given get_cpb_base_url's result. */
  function LifecycleNotificationUrl(baseUrl: string, action: string): (u: string)
    ensures StartsWith(u, baseUrl + "/cpb/platforms/woocommerce/plugin/")
    ensures action == "activate" ==> u == baseUrl + "/cpb/platforms/woocommerce/plugin/activate"
    ensures action != "activate" ==> u == baseUrl + "/cpb/platforms/woocommerce/plugin/deactivate"
  {
    var prefix := baseUrl + "/cpb/platforms/woocommerce/plugin/";
    var u := prefix + (if action == "activate" then "activate" else "deactivate");
    assert u[..|prefix|] == prefix;
    u
  }

  /** Anything but 'activate' is sent to the deactivate endpoint. */
  lemma OtherActionsDeactivate(baseUrl: string, action: string)
    requires action != "activate"
    ensures EndsWith(LifecycleNotificationUrl(baseUrl, action), "/deactivate")
  {
    var u := LifecycleNotificationUrl(baseUrl, action);
    assert u[|u| - 11..] == "/deactivate";
  }

  datatype Outcome = Posted(url: string) | Thrown(message: string)

  /** How far send_lifecycle_notification gets: the action check, then the
      URL check, then the (non-blocking) post. */
  function SendLifecycleNotification(wp: Wp, baseUrl: string, action: string): (o: Outcome)
    ensures o == Thrown("Invalid action: " + action) <==> action != "activate" && action != "deactivate"
    ensures o.Posted? ==> o.url == baseUrl + "/cpb/platforms/woocommerce/plugin/" + action && wp.validUrl(Str(o.url))
    ensures (action == "activate" || action == "deactivate") && wp.validUrl(Str(LifecycleNotificationUrl(baseUrl, action)))
      ==> o == Posted(LifecycleNotificationUrl(baseUrl, action))
    ensures (action == "activate" || action == "deactivate") && !wp.validUrl(Str(LifecycleNotificationUrl(baseUrl, action)))
      ==> o == Thrown("Invalid notification URL: " + LifecycleNotificationUrl(baseUrl, action))
  {
    if action != "activate" && action != "deactivate" then Thrown("Invalid action: " + action)
    else
      var url := LifecycleNotificationUrl(baseUrl, action);
      assert StartsWith("Invalid notification URL: " + url, "Invalid notification URL: ");
      assert !StartsWith("Invalid notification URL: " + url, "Invalid action: ") by {
        assert ("Invalid notification URL: " + url)[8] != "Invalid action: "[8];
      }
      if Empty(Str(url)) || !wp.validUrl(Str(url)) then Thrown("Invalid notification URL: " + url)
      else Posted(url)
  }

  /* ---------------------------------------------------------------------
     get_wc_subscription_status
     --------------------------------------------------------------------- */

  const SubscriptionProductId: string := "12345"

  /** `$expires > time()` under PHP 8's loose comparison with an int: a bool
      compares with the int's truthiness, null as false, an array is always
      greater; a string comparison is left to `strAfter`. */
  function ExpiresAfter(v: Value, now: int, strAfter: (string, int) -> bool): bool
  {
    match v
    case Null => false
    case Bool(b) => b && now == 0
    case Int(e) => e > now
    case Float(f) => f > now as real
    case Str(s) => strAfter(s, now)
    case Arr(_) => true
  }

  /** The entry read for the plugin's product. */
  function Subscription(helperData: Value): Value
  {
    Coalesce(Index(Index(helperData, StrKey("subscriptions")), StrKey(SubscriptionProductId)), Null)
  }

  /** get_wc_subscription_status, given the woocommerce_helper_data option and the time. */
  function SubscriptionStatus(helperData: Value, now: int, strAfter: (string, int) -> bool): (s: string)
    ensures s == "active" || s == "inactive"
    ensures var sub := Subscription(helperData);
      (s == "active" <==> (Truthy(sub) && IsSet(sub, StrKey("expires")) && ExpiresAfter(Index(sub, StrKey("expires")), now, strAfter)
        && Truthy(Coalesce(Index(sub, StrKey("active")), Bool(false)))))
  {
    var subs := Index(helperData, StrKey("subscriptions"));
    if Empty(subs) then
      assert Index(subs, StrKey(SubscriptionProductId)) == Null by { EmptyHasNoEntries(subs, StrKey(SubscriptionProductId)); }
      "inactive"
    else
      var sub := Coalesce(Index(subs, StrKey(SubscriptionProductId)), Null);
      if !Truthy(sub) then "inactive"
      else if IsSet(sub, StrKey("expires")) && ExpiresAfter(Index(sub, StrKey("expires")), now, strAfter)
        && Truthy(Coalesce(Index(sub, StrKey("active")), Bool(false))) then "active"
      else "inactive"
  }

  /** Reading a key of an empty value gives null. */
  lemma EmptyHasNoEntries(v: Value, k: Key)
    requires Empty(v)
    ensures Index(v, k) == Null
  {
    if v.Arr? {
      assert v.entries == [];
    }
  }

  /** PHP stores the key '12345' as the integer 12345, and the lookup finds it either way. */
  lemma SubscriptionUnderIntegerKey(sub: Value)
    ensures Subscription(Arr([Entry(StrKey("subscriptions"), Arr([Entry(IntKey(12345), sub)]))])) == Coalesce(sub, Null)
  {
    NormNonNumeric("subscriptions");
    ProductIdIsIntegerKey();
  }

  lemma ProductIdIsIntegerKey()
    ensures Norm(StrKey(SubscriptionProductId)) == IntKey(12345)
  {
    var s := SubscriptionProductId;
    assert AllDigits(s);
    assert s[..4] == "1234" && "1234"[..3] == "123" && "123"[..2] == "12" && "12"[..1] == "1" && "1"[..0] == "";
    assert DigitsValue("1") == 1;
    assert DigitsValue("12") == 12;
    assert DigitsValue("123") == 123;
    assert DigitsValue("1234") == 1234;
    assert DigitsValue(s) == 12345;
  }

  /** The empty() test on the subscriptions entry is subsumed by the lookup: an
      empty value has no product entry. */
  lemma EmptySubscriptionsInactive(helperData: Value, now: int, strAfter: (string, int) -> bool)
    requires Empty(Index(helperData, StrKey("subscriptions")))
    ensures SubscriptionStatus(helperData, now, strAfter) == "inactive"
  {
  }

  /* ---------------------------------------------------------------------
     weekly_subscription_check
     --------------------------------------------------------------------- */

  /** A payment notification: send_payment_notification($action, $reason). */
  datatype Notice = Notice(action: string, reason: string)

  /** The notification a change from `previous` to `current` sends. */
  function Transition(previous: Value, current: string): (ns: seq<Notice>)
    ensures |ns| <= 1
    ensures forall n :: n in ns ==> n.action == "activate" || n.action == "deactivate"
  {
    if previous == Str("active") && current == "inactive" then [Notice("deactivate", "subscription_expired")]
    else if previous == Str("inactive") && current == "active" then [Notice("activate", "subscription_renewed")]
    else if previous == Str("unknown") && current == "inactive" then [Notice("deactivate", "no_active_subscription")]
    else []
  }

  /** No notification while the status stays the same, in particular after
      the first run has stored a status. */
  lemma {:induction false} NoChangeNoNotice(current: string)
    ensures Transition(Str(current), current) == []
  {
  }

  /** A notification is sent only on a change of status, and 'unknown' can
      only become 'inactive' with one. */
  lemma {:induction false} NoticeMeansChange(previous: Value, current: string)
    requires current == "active" || current == "inactive"
    ensures Transition(previous, current) != [] ==> previous != Str(current)
    ensures previous == Str("unknown") ==> (Transition(previous, current) != [] <==> current == "inactive")
  {
  }

  /** The site options and transient the weekly check reads and writes. */
  class SubscriptionMonitor {
    /** The cpb_subscription_weekly_check transient: Bool(false) when unset or expired. */
    var weeklyCheck: Value
    /** The cpb_previous_subscription_status option, None when it does not exist. */
    var previousStatus: Option<Value>
    /** The payment notifications sent so far. */
    var sent: seq<Notice>

    constructor ()
      ensures weeklyCheck == Bool(false) && previousStatus == None && sent == []
    {
      weeklyCheck := Bool(false);
      previousStatus := None;
      sent := [];
    }

    /** get_option('cpb_previous_subscription_status', 'unknown'). */
    function PreviousStatus(): Value
      reads this
    {
      match previousStatus
      case None => Str("unknown")
      case Some(v) => v
    }

    /** weekly_subscription_check at time `now`. */
    method WeeklySubscriptionCheck(canManageOptions: bool, now: int, helperData: Value, strAfter: (string, int) -> bool)
      modifies this
      ensures var current := SubscriptionStatus(helperData, now, strAfter);
        if !canManageOptions || Truthy(old(weeklyCheck)) then
          weeklyCheck == old(weeklyCheck) && previousStatus == old(previousStatus) && sent == old(sent)
        else
          && weeklyCheck == Int(now)
          && previousStatus == Some(Str(current))
          && sent == old(sent) + Transition(old(PreviousStatus()), current)
      ensures previousStatus != old(previousStatus) ==> previousStatus.Some? && previousStatus.value in {Str("active"), Str("inactive")}
    {
      if !canManageOptions {
        return;
      }
      if Truthy(weeklyCheck) {
        return;
      }
      weeklyCheck := Int(now);
      var current := SubscriptionStatus(helperData, now, strAfter);
      var previous := PreviousStatus();
      if previous == Str("active") && current == "inactive" {
        sent := sent + [Notice("deactivate", "subscription_expired")];
      } else if previous == Str("inactive") && current == "active" {
        sent := sent + [Notice("activate", "subscription_renewed")];
      } else if previous == Str("unknown") && current == "inactive" {
        sent := sent + [Notice("deactivate", "no_active_subscription")];
      }
      previousStatus := Some(Str(current));
    }
  }

  /* ---------------------------------------------------------------------
     encrypt_store_data, XOR fallback
     --------------------------------------------------------------------- */

  /** 'CPB_SECURE_KEY_2024' as bytes. */
  const StoreKey: seq<bv8> := [0x43, 0x50, 0x42, 0x5F, 0x53, 0x45, 0x43, 0x55, 0x52, 0x45, 0x5F, 0x4B, 0x45, 0x59, 0x5F, 0x32, 0x30, 0x32, 0x34]

  /** `e` is `d` XOR-ed byte by byte with the repeating key. */
  predicate XorOf(d: seq<bv8>, e: seq<bv8>)
  {
    |e| == |d| && forall i :: 0 <= i < |d| ==> e[i] == d[i] ^ StoreKey[i % |StoreKey|]
  }

  /** The fallback loop of encrypt_store_data, before base64_encode. */
  method XorFallback(json: seq<bv8>) returns (encrypted: seq<bv8>)
    ensures XorOf(json, encrypted)
  {
    encrypted := [];
    var i := 0;
    while i < |json|
      invariant 0 <= i <= |json| && |encrypted| == i
      invariant forall j :: 0 <= j < i ==> encrypted[j] == json[j] ^ StoreKey[j % |StoreKey|]
    {
      var k := StoreKey[i % |StoreKey|];
      encrypted := encrypted + [json[i] ^ k];
      i := i + 1;
    }
  }

  /** The XOR step is its own inverse: running it on the output restores the input. */
  lemma {:induction false} XorTwiceRestores(d: seq<bv8>, e: seq<bv8>, f: seq<bv8>)
    requires XorOf(d, e) && XorOf(e, f)
    ensures f == d
  {
    forall i | 0 <= i < |d|
      ensures f[i] == d[i]
    {
      var k := StoreKey[i % |StoreKey|];
      assert f[i] == (d[i] ^ k) ^ k;
    }
  }
}
