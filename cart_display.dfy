/** The cart and checkout display filters of CPB_Cart and CPBWOO_Cart: the
    customisation properties as item-data rows, the preview image, and the
    order-item meta. */
module CartDisplay {
  import opened Php
  import opened WordPress
  import opened Plugins
  import opened CartItems
  import Cart

  /* ---------------------------------------------------------------------
     The decoded customisation data
     --------------------------------------------------------------------- */

  /** `$cart_item['customization_data'] ?? null`: the key all the filters read, in both plugins. */
  function CustomizationData(item: Value): Value
  {
    Index(item, StrKey("customization_data"))
  }

  /** The properties the display and order filters iterate over once the value
      of customization_data has passed their own presence check: none when it
      does not decode to an array or its `properties` are empty; foreach over a
      non-array `properties` runs no iteration. */
  function Properties(wp: Wp, data: Value): (ps: seq<Entry>)
    ensures ps != [] ==> wp.jsonDecode(data).Arr? && Index(wp.jsonDecode(data), StrKey("properties")) == Arr(ps)
    ensures wp.jsonDecode(data).Arr? && Index(wp.jsonDecode(data), StrKey("properties")).Arr? ==>
      ps == Index(wp.jsonDecode(data), StrKey("properties")).entries
  {
    var decoded := wp.jsonDecode(data);
    if !decoded.Arr? then []
    else
      var props := Coalesce(Index(decoded, StrKey("properties")), Arr([]));
      if Empty(props) || !props.Arr? then [] else props.entries
  }

  /* ---------------------------------------------------------------------
     add_customization_data_to_cart_item
     --------------------------------------------------------------------- */

  /** The suffix tests of `/\.(jpg|jpeg|png|webp)$/i` on a lower-cased string. */
  predicate HasImageSuffix(t: string)
  {
    EndsWith(t, ".jpg") || EndsWith(t, ".jpeg") || EndsWith(t, ".png") || EndsWith(t, ".webp")
  }

  /** `preg_match('/\.(jpg|jpeg|png|webp)$/i', $s)`: case-insensitive, and `$`
      also matches just before a final newline. */
  predicate IsImageUrl(s: string)
  {
    var t := ToLower(s);
    HasImageSuffix(t) || (|t| > 0 && t[|t| - 1] == '\n' && HasImageSuffix(t[..|t| - 1]))
  }

  predicate IsScalar(v: Value) { v.Bool? || v.Int? || v.Float? || v.Str? }

  /** The displayed value of one property. */
  function DisplayValue(wp: Wp, v: Value): string
  {
    if v.Str? && IsImageUrl(v.s) then
      "<a href=\"" + wp.escUrl(v.s) + "\" target=\"_blank\">" + wp.escUrl(v.s) + "</a>"
    else wp.escHtml(if IsScalar(v) then StrCast(wp, v) else wp.jsonEncode(v))
  }

  /** The names of a row's three fields. */
  function RowNames(p: Plugin): (names: seq<string>)
    ensures FieldNames(names) && |names| == 3
  {
    match p
    case Cpb => ["key", "value", "display"]
    case Cpbwoo => ["cpbwoo_key", "cpbwoo_value", "cpbwoo_display"]
  }

  /** The row one property becomes. */
  function Row(p: Plugin, wp: Wp, e: Entry): Value
  {
    var shown := DisplayValue(wp, e.val);
    Arr(Record(RowNames(p), [Str(wp.escHtml(KeyText(e.key))), Str(shown), Str(shown)]))
  }

  /** The rows the filter appends. */
  function Rows(p: Plugin, wp: Wp, ps: seq<Entry>): (rows: seq<Value>)
    ensures |rows| == |ps| && forall i :: 0 <= i < |ps| ==> rows[i] == Row(p, wp, ps[i])
  {
    seq(|ps|, i requires 0 <= i < |ps| => Row(p, wp, ps[i]))
  }

  /** The value add_customization_data_to_cart_item returns. */
  function CartItemRows(p: Plugin, wp: Wp, itemData: seq<Value>, cartItem: Value): seq<Value>
  {
    if CustomizationData(cartItem) == Null then itemData
    else itemData + Rows(p, wp, Properties(wp, CustomizationData(cartItem)))
  }

  /** add_customization_data_to_cart_item (`$item_data` is a list). */
  method AddCustomizationDataToCartItem(p: Plugin, wp: Wp, itemData: seq<Value>, cartItem: Value) returns (r: seq<Value>)
    ensures r == CartItemRows(p, wp, itemData, cartItem)
  {
    r := itemData;
    if CustomizationData(cartItem) == Null {
      return;
    }
    var decoded := wp.jsonDecode(CustomizationData(cartItem));
    if !decoded.Arr? {
      return;
    }
    var props := Coalesce(Index(decoded, StrKey("properties")), Arr([]));
    if Empty(props) || !props.Arr? {
      return;
    }
    r := AppendRows(p, wp, itemData, props.entries);
  }

  /** The foreach of add_customization_data_to_cart_item. */
  method AppendRows(p: Plugin, wp: Wp, itemData: seq<Value>, ps: seq<Entry>) returns (r: seq<Value>)
    ensures r == itemData + Rows(p, wp, ps)
  {
    r := itemData;
    var i := 0;
    while i < |ps|
      invariant 0 <= i <= |ps|
      invariant r == itemData + Rows(p, wp, ps[..i])
    {
      r := r + [Row(p, wp, ps[i])];
      i := i + 1;
      assert Rows(p, wp, ps[..i]) == Rows(p, wp, ps[..i - 1]) + [Row(p, wp, ps[i - 1])];
    }
    assert ps[..|ps|] == ps;
  }

  /** The existing rows are kept and exactly one row per property follows them,
      in property order, showing the escaped property name. */
  lemma {:induction false} RowsAppended(p: Plugin, wp: Wp, itemData: seq<Value>, cartItem: Value)
    ensures var r := CartItemRows(p, wp, itemData, cartItem);
      var ps := if CustomizationData(cartItem) == Null then [] else Properties(wp, CustomizationData(cartItem));
      && |r| == |itemData| + |ps| && r[..|itemData|] == itemData
      && forall i :: 0 <= i < |ps| ==>
        && Index(r[|itemData| + i], StrKey(RowNames(p)[0])) == Str(wp.escHtml(KeyText(ps[i].key)))
        && Index(r[|itemData| + i], StrKey(RowNames(p)[1])) == Str(DisplayValue(wp, ps[i].val))
        && Index(r[|itemData| + i], StrKey(RowNames(p)[2])) == Str(DisplayValue(wp, ps[i].val))
  {
    var r := CartItemRows(p, wp, itemData, cartItem);
    var ps := if CustomizationData(cartItem) == Null then [] else Properties(wp, CustomizationData(cartItem));
    assert r == itemData + Rows(p, wp, ps);
    forall i | 0 <= i < |ps|
      ensures Index(r[|itemData| + i], StrKey(RowNames(p)[0])) == Str(wp.escHtml(KeyText(ps[i].key)))
      ensures Index(r[|itemData| + i], StrKey(RowNames(p)[1])) == Str(DisplayValue(wp, ps[i].val))
      ensures Index(r[|itemData| + i], StrKey(RowNames(p)[2])) == Str(DisplayValue(wp, ps[i].val))
    {
      var names := RowNames(p);
      var shown := DisplayValue(wp, ps[i].val);
      var vals := [Str(wp.escHtml(KeyText(ps[i].key))), Str(shown), Str(shown)];
      assert r[|itemData| + i] == Arr(Record(names, vals));
      RecordGet(names, vals, names[0]);
      RecordGet(names, vals, names[1]);
      RecordGet(names, vals, names[2]);
      assert IndexOf(names, names[1]) == 1;
      assert IndexOf(names, names[2]) == 2;
    }
  }

  /** The rows are unchanged exactly in the three early-return cases. */
  lemma {:induction false} RowsUnchanged(p: Plugin, wp: Wp, itemData: seq<Value>, cartItem: Value)
    ensures CartItemRows(p, wp, itemData, cartItem) == itemData <==>
      CustomizationData(cartItem) == Null || Properties(wp, CustomizationData(cartItem)) == []
  {
    var r := CartItemRows(p, wp, itemData, cartItem);
    if CustomizationData(cartItem) != Null && Properties(wp, CustomizationData(cartItem)) != [] {
      assert |r| > |itemData|;
    }
  }

  /** The image test ignores case: a URL passes exactly when its lower-case form does. */
  lemma ImageUrlIgnoresCase(s: string)
    ensures IsImageUrl(s) <==> IsImageUrl(ToLower(s))
  {
    assert ToLower(ToLower(s)) == ToLower(s);
  }

  /** A string ending with a non-empty suffix ends with the suffix's last character. */
  lemma EndsWithLast(u: string, p: string)
    ensures EndsWith(u, p) && |p| > 0 ==> u[|u| - 1] == p[|p| - 1]
  {
    if EndsWith(u, p) && |p| > 0 {
      assert u[|u| - |p|..][|p| - 1] == u[|u| - 1];
    }
  }

  /** No image suffix ends in a newline. */
  lemma NoSuffixBeforeNewline(t: string)
    ensures !HasImageSuffix(t + "\n")
  {
    var u := t + "\n";
    EndsWithLast(u, ".jpg");
    EndsWithLast(u, ".jpeg");
    EndsWithLast(u, ".png");
    EndsWithLast(u, ".webp");
  }

  /** `$` lets exactly one trailing newline through. */
  lemma ImageUrlTrailingNewline(s: string)
    ensures IsImageUrl(s + "\n") <==> HasImageSuffix(ToLower(s))
    ensures !IsImageUrl(s + "\n\n")
  {
    var t := ToLower(s);
    assert ToLower(s + "\n") == t + "\n";
    assert ToLower(s + "\n\n") == (t + "\n") + "\n";
    NoSuffixBeforeNewline(t);
    NoSuffixBeforeNewline(t + "\n");
    assert (t + "\n")[..|t|] == t;
    assert ((t + "\n") + "\n")[..|t| + 1] == t + "\n";
  }

  /* ---------------------------------------------------------------------
     The preview image
     --------------------------------------------------------------------- */

  /** The first value of `vs` that is not null, else null. */
  function FirstNonNull(vs: seq<Value>): (r: Value)
    ensures r == Null <==> forall i :: 0 <= i < |vs| ==> vs[i] == Null
  {
    if vs == [] then Null
    else if vs[0] != Null then vs[0]
    else
      assert forall i :: 1 <= i < |vs| ==> vs[i] == vs[1..][i - 1];
      FirstNonNull(vs[1..])
  }

  /** A non-null result is the value at the first non-null position. */
  lemma {:induction false} FirstNonNullIsFirst(vs: seq<Value>)
    requires FirstNonNull(vs) != Null
    ensures exists i :: 0 <= i < |vs| && vs[i] == FirstNonNull(vs) && forall j :: 0 <= j < i ==> vs[j] == Null
  {
    if vs[0] == Null {
      FirstNonNullIsFirst(vs[1..]);
      var i :| 0 <= i < |vs[1..]| && vs[1..][i] == FirstNonNull(vs[1..]) && forall j :: 0 <= j < i ==> vs[1..][j] == Null;
      assert vs[i + 1] == FirstNonNull(vs);
      assert forall j :: 0 <= j < i + 1 ==> vs[j] == Null by {
        forall j | 0 <= j < i + 1 ensures vs[j] == Null {
          if j > 0 { assert vs[j] == vs[1..][j - 1]; }
        }
      }
    } else {
      assert vs[0] == FirstNonNull(vs);
    }
  }

  /** The property names tried for the preview image, in order. */
  const PreviewKeys: seq<string> := ["_img", "img", "_image", "image"]

  /** `$decoded['properties']['_img'] ?? ... ['image'] ?? null`. */
  function PreviewUrl(decoded: Value): Value
  {
    var props := Index(decoded, StrKey("properties"));
    Coalesce(Index(props, StrKey("_img")), Coalesce(Index(props, StrKey("img")),
      Coalesce(Index(props, StrKey("_image")), Index(props, StrKey("image")))))
  }

  /** The four candidate values, in the order they are tried. */
  function PreviewCandidates(decoded: Value): (vs: seq<Value>)
    ensures |vs| == |PreviewKeys| && forall i :: 0 <= i < |vs| ==> vs[i] == Index(Index(decoded, StrKey("properties")), StrKey(PreviewKeys[i]))
  {
    var props := Index(decoded, StrKey("properties"));
    [Index(props, StrKey("_img")), Index(props, StrKey("img")), Index(props, StrKey("_image")), Index(props, StrKey("image"))]
  }

  /** The preview URL is the first non-null of the four properties, in order. */
  lemma PreviewUrlIsFirstNonNull(decoded: Value)
    ensures PreviewUrl(decoded) == FirstNonNull(PreviewCandidates(decoded))
  {
    var vs := PreviewCandidates(decoded);
    assert FirstNonNull(vs[3..]) == Coalesce(vs[3], Null) by { assert vs[3..][1..] == []; }
    assert FirstNonNull(vs[2..]) == Coalesce(vs[2], FirstNonNull(vs[3..])) by { assert vs[2..][1..] == vs[3..]; }
    assert FirstNonNull(vs[1..]) == Coalesce(vs[1], FirstNonNull(vs[2..])) by { assert vs[1..][1..] == vs[2..]; }
  }

  /** add_customization_data_to_cart_image: a single override image when the
      preview URL is truthy, else the images it was given. */
  function CartImages(wp: Wp, productImages: Value, cartItem: Value): (r: Value)
    ensures var decoded := wp.jsonDecode(CustomizationData(cartItem));
      r != productImages ==>
        (CustomizationData(cartItem) != Null && decoded.Arr?
         && Truthy(PreviewUrl(decoded)) && r == List([PreviewImage(wp, PreviewUrl(decoded))]))
  {
    if CustomizationData(cartItem) == Null then productImages
    else
      var decoded := wp.jsonDecode(CustomizationData(cartItem));
      if !decoded.Arr? then productImages
      else
        var url := PreviewUrl(decoded);
        if Empty(url) then productImages
        else List([PreviewImage(wp, url)])
  }

  /** The override image object. */
  function PreviewImage(wp: Wp, url: Value): Value
  {
    var src := Str(wp.escUrl(StrCast(wp, url)));
    var caption := Str("CPB Customized Product Preview");
    Arr(Record(["id", "src", "thumbnail", "srcset", "sizes", "name", "alt"], [Int(0), src, src, Str(""), Str(""), caption, caption]))
  }

  /** The `<img>` tag of the mini-cart thumbnail. */
  function ImgTag(wp: Wp, url: Value, productName: Option<string>): string
  {
    var alt := match productName case Some(n) => n case None => "Custom Product";
    "<img src=\"" + wp.escUrl(StrCast(wp, url)) + "\" alt=\"" + wp.escAttr(alt)
      + "\" style=\"max-width:100px;max-height:100px;object-fit:cover;\" />"
  }

  /** add_customization_data_to_mini_cart_image; `productName` is the name of
      `$cart_item['data']` when that is set. CPBWOO also tests that the decoded
      data is an array with `properties` set. */
  function MiniCartImage(p: Plugin, wp: Wp, productImage: string, cartItem: Value, productName: Option<string>): (r: string)
    ensures var url := PreviewUrl(wp.jsonDecode(CustomizationData(cartItem)));
      r != productImage ==> CustomizationData(cartItem) != Null && Truthy(url) && wp.validUrl(url) && r == ImgTag(wp, url, productName)
    ensures var url := PreviewUrl(wp.jsonDecode(CustomizationData(cartItem)));
      CustomizationData(cartItem) != Null && Truthy(url) && wp.validUrl(url) ==> r == ImgTag(wp, url, productName)
  {
    if CustomizationData(cartItem) == Null then productImage
    else
      var data := wp.jsonDecode(CustomizationData(cartItem));
      if p == Cpbwoo && !(data.Arr? && IsSet(data, StrKey("properties"))) then productImage
      else
        var url := PreviewUrl(data);
        if Truthy(url) && wp.validUrl(url) then ImgTag(wp, url, productName) else productImage
  }

  /** The cart-image filter on data that decodes to an array: the single
      override exactly when the preview URL is truthy, else the images it was
      given; data that is missing or does not decode to an array leaves them alone. */
  lemma CartImagesCases(wp: Wp, productImages: Value, cartItem: Value)
    ensures var decoded := wp.jsonDecode(CustomizationData(cartItem));
      CustomizationData(cartItem) != Null && decoded.Arr? ==>
        && (Truthy(PreviewUrl(decoded)) ==> CartImages(wp, productImages, cartItem) == List([PreviewImage(wp, PreviewUrl(decoded))]))
        && (!Truthy(PreviewUrl(decoded)) ==> CartImages(wp, productImages, cartItem) == productImages)
    ensures CustomizationData(cartItem) == Null || !wp.jsonDecode(CustomizationData(cartItem)).Arr? ==>
      CartImages(wp, productImages, cartItem) == productImages
  {
  }

  /** The extra test CPBWOO makes changes nothing: reading a key of a
      non-array, or of a missing `properties`, gives null already. */
  lemma MiniCartPluginsAgree(wp: Wp, productImage: string, cartItem: Value, productName: Option<string>)
    ensures MiniCartImage(Cpb, wp, productImage, cartItem, productName) == MiniCartImage(Cpbwoo, wp, productImage, cartItem, productName)
  {
  }

  /** Whenever the mini-cart shows the preview, the cart-image filter overrides
      the images with the same URL. */
  lemma MiniCartPreviewImpliesOverride(p: Plugin, wp: Wp, productImage: string, productImages: Value, cartItem: Value, productName: Option<string>)
    requires MiniCartImage(p, wp, productImage, cartItem, productName) != productImage
    ensures var url := PreviewUrl(wp.jsonDecode(CustomizationData(cartItem)));
      && MiniCartImage(p, wp, productImage, cartItem, productName) == ImgTag(wp, url, productName)
      && CartImages(wp, productImages, cartItem) == List([PreviewImage(wp, url)])
      && wp.validUrl(url)
  {
  }

  /* ---------------------------------------------------------------------
     add_customization_data_to_order_item
     --------------------------------------------------------------------- */

  datatype Meta = Meta(key: string, value: string)

  /** The entries of `meta` under other keys than `key`, in order. */
  function Without(meta: seq<Meta>, key: string): seq<Meta>
  {
    if meta == [] then []
    else (if meta[0].key == key then [] else [meta[0]]) + Without(meta[1..], key)
  }

  /** Exactly the entries under other keys are kept. */
  lemma {:induction false} WithoutKeeps(meta: seq<Meta>, key: string, m: Meta)
    ensures m in Without(meta, key) <==> m in meta && m.key != key
  {
    if meta != [] {
      WithoutKeeps(meta[1..], key, m);
      assert meta == [meta[0]] + meta[1..];
    }
  }

  /** The order item's meta data; `meta` stands for what get_meta_data() would report. */
  class OrderItem {
    var meta: seq<Meta>

    constructor (initial: seq<Meta>)
      ensures meta == initial
    {
      meta := initial;
    }

    /** add_meta_data($key, $value, true): earlier entries under the key go, the new one is appended. */
    method AddMetaData(key: string, value: string)
      modifies this
      ensures meta == AddUnique(old(meta), key, value)
    {
      meta := Without(meta, key) + [Meta(key, value)];
    }
  }

  function AddUnique(meta: seq<Meta>, key: string, value: string): seq<Meta>
  {
    Without(meta, key) + [Meta(key, value)]
  }

  /** The meta entry one property becomes; arrays are JSON-encoded first. */
  function PropertyMeta(wp: Wp, e: Entry): Meta
  {
    Meta(wp.escHtml(KeyText(e.key)), wp.escHtml(if e.val.Arr? then wp.jsonEncode(e.val) else StrCast(wp, e.val)))
  }

  /** The meta after the first `n` properties. */
  function MetaUpTo(wp: Wp, meta: seq<Meta>, ps: seq<Entry>, n: nat): seq<Meta>
    requires n <= |ps|
  {
    if n == 0 then meta
    else
      var m := PropertyMeta(wp, ps[n - 1]);
      AddUnique(MetaUpTo(wp, meta, ps, n - 1), m.key, m.value)
  }

  /** The properties the order filter stores: it tests `empty()`, not `isset()`. */
  function OrderProperties(wp: Wp, values: Value): seq<Entry>
  {
    if Empty(CustomizationData(values)) then [] else Properties(wp, CustomizationData(values))
  }

  /** add_customization_data_to_order_item. */
  method AddCustomizationDataToOrderItem(wp: Wp, item: OrderItem, values: Value)
    modifies item
    ensures item.meta == MetaUpTo(wp, old(item.meta), OrderProperties(wp, values), |OrderProperties(wp, values)|)
  {
    if Empty(CustomizationData(values)) {
      return;
    }
    var decoded := wp.jsonDecode(CustomizationData(values));
    if !decoded.Arr? {
      return;
    }
    var props := Coalesce(Index(decoded, StrKey("properties")), Arr([]));
    if Empty(props) || !props.Arr? {
      return;
    }
    StoreProperties(wp, item, props.entries);
  }

  /** The foreach of add_customization_data_to_order_item. */
  method StoreProperties(wp: Wp, item: OrderItem, ps: seq<Entry>)
    modifies item
    ensures item.meta == MetaUpTo(wp, old(item.meta), ps, |ps|)
  {
    var i := 0;
    while i < |ps|
      invariant 0 <= i <= |ps|
      invariant item.meta == MetaUpTo(wp, old(item.meta), ps, i)
    {
      ghost var before := item.meta;
      var m := PropertyMeta(wp, ps[i]);
      item.AddMetaData(m.key, m.value);
      assert item.meta == AddUnique(before, m.key, m.value);
      assert MetaUpTo(wp, old(item.meta), ps, i + 1) == AddUnique(MetaUpTo(wp, old(item.meta), ps, i), m.key, m.value);
      i := i + 1;
    }
  }

  function Count(meta: seq<Meta>, key: string): nat
  {
    if meta == [] then 0 else (if meta[0].key == key then 1 else 0) + Count(meta[1..], key)
  }

  lemma {:induction false} CountConcat(a: seq<Meta>, b: seq<Meta>, key: string)
    ensures Count(a + b, key) == Count(a, key) + Count(b, key)
  {
    if a == [] {
      assert a + b == b;
    } else {
      assert (a + b)[0] == a[0];
      assert (a + b)[1..] == a[1..] + b;
      CountConcat(a[1..], b, key);
    }
  }

  lemma {:induction false} CountWithout(meta: seq<Meta>, key: string, other: string)
    ensures Count(Without(meta, key), key) == 0
    ensures other != key ==> Count(Without(meta, key), other) == Count(meta, other)
  {
    if meta != [] {
      CountWithout(meta[1..], key, other);
      var head := if meta[0].key == key then [] else [meta[0]];
      CountConcat(head, Without(meta[1..], key), key);
      CountConcat(head, Without(meta[1..], key), other);
      if head != [] {
        assert head[1..] == [];
      }
    }
  }

  /** add_meta_data with `$unique` leaves exactly one entry under its key. */
  lemma AddUniqueCount(meta: seq<Meta>, key: string, value: string, k: string)
    ensures Count(AddUnique(meta, key, value), k) == if k == key then 1 else Count(meta, k)
  {
    CountWithout(meta, key, k);
    CountConcat(Without(meta, key), [Meta(key, value)], k);
    assert [Meta(key, value)][1..] == [];
  }

  /** Some of the first `n` properties is labelled `k`. */
  predicate Labelled(wp: Wp, ps: seq<Entry>, n: nat, k: string)
    requires n <= |ps|
  {
    n > 0 && (PropertyMeta(wp, ps[n - 1]).key == k || Labelled(wp, ps, n - 1, k))
  }

  /** After the filter, every property's label has exactly one meta entry, and
      the count of every other key is what it was. */
  lemma {:induction false} OrderMetaUnique(wp: Wp, meta: seq<Meta>, ps: seq<Entry>, n: nat, k: string)
    requires n <= |ps|
    ensures Count(MetaUpTo(wp, meta, ps, n), k) == if Labelled(wp, ps, n, k) then 1 else Count(meta, k)
  {
    if n > 0 {
      OrderMetaUnique(wp, meta, ps, n - 1, k);
      var m := PropertyMeta(wp, ps[n - 1]);
      AddUniqueCount(MetaUpTo(wp, meta, ps, n - 1), m.key, m.value, k);
    }
  }

  /** The last property with a given label decides that label's value: when no
      property after the `j`-th carries its label, the `j`-th property's entry is
      in the meta and is the only entry under that label. */
  lemma {:induction false} OrderMetaLastWins(wp: Wp, meta: seq<Meta>, ps: seq<Entry>, n: nat, j: nat)
    requires j < n <= |ps|
    requires forall i :: j < i < n ==> PropertyMeta(wp, ps[i]).key != PropertyMeta(wp, ps[j]).key
    ensures PropertyMeta(wp, ps[j]) in MetaUpTo(wp, meta, ps, n)
    ensures forall m :: m in MetaUpTo(wp, meta, ps, n) && m.key == PropertyMeta(wp, ps[j]).key ==> m == PropertyMeta(wp, ps[j])
  {
    var last := PropertyMeta(wp, ps[j]);
    var m' := PropertyMeta(wp, ps[n - 1]);
    var prev := MetaUpTo(wp, meta, ps, n - 1);
    assert MetaUpTo(wp, meta, ps, n) == Without(prev, m'.key) + [m'];
    if n == j + 1 {
      forall m | m in MetaUpTo(wp, meta, ps, n) && m.key == last.key
        ensures m == last
      {
        WithoutKeeps(prev, m'.key, m);
      }
    } else {
      OrderMetaLastWins(wp, meta, ps, n - 1, j);
      assert m'.key != last.key;
      WithoutKeeps(prev, m'.key, last);
      forall m | m in MetaUpTo(wp, meta, ps, n) && m.key == last.key
        ensures m == last
      {
        WithoutKeeps(prev, m'.key, m);
      }
    }
  }

  /* ---------------------------------------------------------------------
     Which key the filters read
     --------------------------------------------------------------------- */

  /** The lines CPBWOO's add_to_cart creates have no customization_data entry
      (it stores cpbwoo_customization_data), so for them every filter returns
      what it was given and the order filter adds no meta. */
  lemma CpbwooLinesAreNotDecorated(wp: Wp, shop: Cart.Shop, hasCart: bool, i: nat, item: Value,
      itemData: seq<Value>, productImages: Value, productImage: string, productName: Option<string>, meta: seq<Meta>)
    requires Cart.TryItem(Cpbwoo, wp, shop, hasCart, i, item).line.Some?
    ensures var l := Cart.CartItemArray(Cart.TryItem(Cpbwoo, wp, shop, hasCart, i, item).line.value);
      && CartItemRows(Cpbwoo, wp, itemData, l) == itemData
      && CartImages(wp, productImages, l) == productImages
      && MiniCartImage(Cpbwoo, wp, productImage, l, productName) == productImage
      && OrderProperties(wp, l) == []
  {
    var line := Cart.TryItem(Cpbwoo, wp, shop, hasCart, i, item).line.value;
    var r := Cart.ReadItem(Cpbwoo, wp, item);
    Cart.AddedLineData(Cpbwoo, wp, shop, hasCart, i, item);
    var vals := [Str(Cart.UniqPrefix(Cpbwoo) + shop.uniqid(i)), Str(r.cpbId), r.price, r.custom];
    Cart.LineField(line, Cart.DataNames(Cpbwoo), vals, "customization_data");
  }

  /** CPB's lines do carry the posted customisation data under the key the filters read. */
  lemma CpbLinesCarryCustomization(wp: Wp, shop: Cart.Shop, hasCart: bool, i: nat, item: Value)
    requires Cart.TryItem(Cpb, wp, shop, hasCart, i, item).line.Some?
    ensures CustomizationData(Cart.CartItemArray(Cart.TryItem(Cpb, wp, shop, hasCart, i, item).line.value))
      == Cart.ReadItem(Cpb, wp, item).custom
  {
    var line := Cart.TryItem(Cpb, wp, shop, hasCart, i, item).line.value;
    var r := Cart.ReadItem(Cpb, wp, item);
    Cart.AddedLineData(Cpb, wp, shop, hasCart, i, item);
    var names := Cart.DataNames(Cpb);
    var vals := [Str(Cart.UniqPrefix(Cpb) + shop.uniqid(i)), Str(r.cpbId), r.price, r.custom];
    Cart.LineField(line, names, vals, "customization_data");
    assert IndexOf(names, "customization_data") == 3;
  }
}
