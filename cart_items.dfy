/** sanitize_cart_items_array of CPB_Cart and CPBWOO_Cart: every array-valued
    element of the posted items becomes one sanitised item with five fixed
    fields, followed by the item's other string fields under sanitize_key'd names. */
module CartItems {
  import opened Php
  import opened WordPress
  import opened Plugins

  /** The names of the five fixed fields. */
  datatype Fields = Fields(woo: string, cpbId: string, qty: string, price: string, custom: string)

  /** The names under which the raw posted item is read. */
  function RawFields(p: Plugin): Fields
  {
    match p
    case Cpb => Fields("woo_product_id", "cpb_product_id", "quantity", "cpb_product_price", "customization_data")
    case Cpbwoo => Fields("woo_product_id", "cpbwoo_product_id", "quantity", "cpbwoo_product_price", "customization_data")
  }

  /** The names under which the sanitised item holds the fields (and add_to_cart reads them). */
  function ItemFields(p: Plugin): Fields
  {
    match p
    case Cpb => Fields("woo_product_id", "cpb_product_id", "quantity", "cpb_product_price", "customization_data")
    case Cpbwoo => Fields("cpbwoo_woo_product_id", "cpbwoo_product_id", "cpbwoo_quantity", "cpbwoo_product_price", "cpbwoo_customization_data")
  }

  /** The names of the fixed fields of a sanitised item, in the order the source assigns them. */
  function FixedNames(p: Plugin): (names: seq<string>)
    ensures FieldNames(names) && |names| == 5
  {
    var f := ItemFields(p);
    [f.woo, f.cpbId, f.qty, f.price, f.custom]
  }

  /** The keys of the fixed fields. */
  predicate FixedKey(p: Plugin, k: Key)
  {
    k.StrKey? && k.s in FixedNames(p)
  }

  /** `$item[$name] ?? null`. */
  function Field(item: seq<Entry>, name: string): Value
  {
    Index(Arr(item), StrKey(name))
  }

  /** The values of the five fixed fields, each computed from the raw item. */
  function FixedValues(p: Plugin, wp: Wp, item: seq<Entry>): (v: seq<Value>)
    ensures |v| == 5
  {
    var raw := RawFields(p);
    var woo := Field(item, raw.woo);
    var cpbId := Field(item, raw.cpbId);
    var qty := Field(item, raw.qty);
    var price := Field(item, raw.price);
    var custom := Field(item, raw.custom);
    [ Int(if woo != Null then wp.absint(woo) else 0),
      Str(if cpbId != Null then SanitizeTextField(wp, cpbId) else ""),
      Int(if qty != Null then (if wp.absint(qty) < 1 then 1 else wp.absint(qty)) else 1),
      if price != Null then Float(wp.floatval(price)) else Int(0),
      if custom.Str? then custom else Str("") ]
  }

  lemma FixedValuesShape(p: Plugin, wp: Wp, item: seq<Entry>)
    ensures var v := FixedValues(p, wp, item);
      v[0].Int? && v[0].i >= 0 && v[1].Str? && v[2].Int? && v[2].i >= 1 && (v[3].Float? || v[3] == Int(0)) && v[4].Str?
  {
  }

  /** The sanitised item before the extra-fields loop. */
  function FixedFields(p: Plugin, wp: Wp, item: seq<Entry>): seq<Entry>
  {
    Record(FixedNames(p), FixedValues(p, wp, item))
  }

  /** One turn of the extra-fields loop: a string field whose raw key is not yet
      set in the sanitised item is copied under its sanitize_key'd name. */
  function ExtraStep(wp: Wp, acc: seq<Entry>, e: Entry): seq<Entry>
  {
    if !IsSet(Arr(acc), e.key) && e.val.Str? then
      Put(acc, StrKey(wp.sanitizeKey(KeyText(e.key))), Str(SanitizeTextField(wp, e.val)))
    else acc
  }

  /** The sanitised item after the extra-fields loop has seen the first `n` raw fields. */
  function ExtrasUpTo(wp: Wp, fixed: seq<Entry>, item: seq<Entry>, n: nat): seq<Entry>
    requires n <= |item|
  {
    if n == 0 then fixed else ExtraStep(wp, ExtrasUpTo(wp, fixed, item, n - 1), item[n - 1])
  }

  /** One sanitised item. */
  function SanitizeItem(p: Plugin, wp: Wp, item: seq<Entry>): seq<Entry>
  {
    ExtrasUpTo(wp, FixedFields(p, wp, item), item, |item|)
  }

  /** The array-valued elements of `a`, in order. */
  function ArrayElements(a: seq<Entry>): (r: seq<seq<Entry>>)
    ensures |r| <= |a|
  {
    if a == [] then []
    else ArrayElements(a[..|a| - 1]) + (if a[|a| - 1].val.Arr? then [a[|a| - 1].val.entries] else [])
  }

  /** The sanitised items of the first elements of the posted array. */
  function SanitizeAll(p: Plugin, wp: Wp, a: seq<Entry>): seq<Value>
  {
    if a == [] then []
    else SanitizeAll(p, wp, a[..|a| - 1]) + (if a[|a| - 1].val.Arr? then [Arr(SanitizeItem(p, wp, a[|a| - 1].val.entries))] else [])
  }

  /** sanitize_cart_items_array, as the list of its values (its keys are 0, 1, ...). */
  function SanitizeCartItemsArray(p: Plugin, wp: Wp, items: Value): (r: seq<Value>)
    ensures !items.Arr? ==> r == []
  {
    if items.Arr? then SanitizeAll(p, wp, items.entries) else []
  }

  /** The loops of sanitize_cart_items_array. */
  method SanitizeCartItems(p: Plugin, wp: Wp, items: Value) returns (r: seq<Value>)
    ensures r == SanitizeCartItemsArray(p, wp, items)
  {
    if !items.Arr? {
      return [];
    }
    var entries := items.entries;
    r := [];
    var i := 0;
    while i < |entries|
      invariant 0 <= i <= |entries|
      invariant r == SanitizeAll(p, wp, entries[..i])
    {
      var e := entries[i];
      SanitizeAllStep(p, wp, entries, i);
      if e.val.Arr? {
        var s := SanitizeOneItem(p, wp, e.val.entries);
        r := r + [Arr(s)];
      }
      i := i + 1;
    }
    assert entries[..|entries|] == entries;
  }

  /** One turn of the outer loop. */
  lemma SanitizeAllStep(p: Plugin, wp: Wp, a: seq<Entry>, i: nat)
    requires i < |a|
    ensures SanitizeAll(p, wp, a[..i + 1])
      == SanitizeAll(p, wp, a[..i]) + (if a[i].val.Arr? then [Arr(SanitizeItem(p, wp, a[i].val.entries))] else [])
  {
    assert a[..i + 1][..i] == a[..i];
  }

  /** The body of the outer loop: the fixed fields, then the extra-fields loop. */
  method SanitizeOneItem(p: Plugin, wp: Wp, item: seq<Entry>) returns (s: seq<Entry>)
    ensures s == SanitizeItem(p, wp, item)
  {
    s := ExtraFields(wp, FixedFields(p, wp, item), item);
  }

  /** The extra-fields loop, starting from the fixed fields `fixed`. */
  method ExtraFields(wp: Wp, fixed: seq<Entry>, item: seq<Entry>) returns (s: seq<Entry>)
    ensures s == ExtrasUpTo(wp, fixed, item, |item|)
  {
    s := fixed;
    var j := 0;
    while j < |item|
      invariant 0 <= j <= |item|
      invariant s == ExtrasUpTo(wp, fixed, item, j)
    {
      var x := item[j];
      if !IsSet(Arr(s), x.key) && x.val.Str? {
        s := Put(s, StrKey(wp.sanitizeKey(KeyText(x.key))), Str(SanitizeTextField(wp, x.val)));
      }
      j := j + 1;
    }
  }

  /* ---------------------------------------------------------------------
     Properties
     --------------------------------------------------------------------- */

  /** One sanitised item per array-valued element, in order; other elements are skipped. */
  lemma {:induction false} OnePerArrayElement(p: Plugin, wp: Wp, a: seq<Entry>)
    ensures |SanitizeAll(p, wp, a)| == |ArrayElements(a)|
    ensures forall i :: 0 <= i < |ArrayElements(a)| ==> SanitizeAll(p, wp, a)[i] == Arr(SanitizeItem(p, wp, ArrayElements(a)[i]))
  {
    if a != [] {
      var b, last := a[..|a| - 1], a[|a| - 1];
      OnePerArrayElement(p, wp, b);
      if last.val.Arr? {
        assert SanitizeAll(p, wp, a) == SanitizeAll(p, wp, b) + [Arr(SanitizeItem(p, wp, last.val.entries))];
        assert ArrayElements(a) == ArrayElements(b) + [last.val.entries];
      } else {
        assert SanitizeAll(p, wp, a) == SanitizeAll(p, wp, b) + [];
        assert ArrayElements(a) == ArrayElements(b) + [];
      }
    }
  }

  /** An array without array-valued elements has no items. */
  lemma {:induction false} NoArrayElements(a: seq<Entry>)
    requires forall i :: 0 <= i < |a| ==> !a[i].val.Arr?
    ensures ArrayElements(a) == []
  {
    if a != [] {
      NoArrayElements(a[..|a| - 1]);
    }
  }

  /** No string-valued extra field whose raw key is not itself a fixed key is
      renamed by sanitize_key onto a fixed key. */
  predicate NoShadow(p: Plugin, wp: Wp, item: seq<Entry>)
  {
    forall i :: 0 <= i < |item| && item[i].val.Str? && !FixedKey(p, Norm(item[i].key)) ==>
      !FixedKey(p, Norm(StrKey(wp.sanitizeKey(KeyText(item[i].key)))))
  }

  lemma FixedFieldsLookup(p: Plugin, wp: Wp, item: seq<Entry>, k: Key)
    requires FixedKey(p, k)
    ensures Get(FixedFields(p, wp, item), k).Some? && Get(FixedFields(p, wp, item), k).value != Null
    ensures Norm(k) == k
  {
    RecordGet(FixedNames(p), FixedValues(p, wp, item), k.s);
    NormNonNumeric(k.s);
  }

  /** One turn of the extra-fields loop leaves the fixed fields alone when they
      are all set and the turn's field does not shadow one of them. */
  lemma StepKeepsFixed(p: Plugin, wp: Wp, acc: seq<Entry>, e: Entry)
    requires forall k :: FixedKey(p, k) ==> Get(acc, k).Some? && Get(acc, k).value != Null
    requires e.val.Str? && !FixedKey(p, Norm(e.key)) ==> !FixedKey(p, Norm(StrKey(wp.sanitizeKey(KeyText(e.key)))))
    ensures forall k :: FixedKey(p, k) ==> Get(ExtraStep(wp, acc, e), k) == Get(acc, k)
  {
    if !IsSet(Arr(acc), e.key) && e.val.Str? {
      GetNorm(acc, e.key);
      var sk := StrKey(wp.sanitizeKey(KeyText(e.key)));
      forall k | FixedKey(p, k)
        ensures Get(ExtraStep(wp, acc, e), k) == Get(acc, k)
      {
        NormNonNumeric(k.s);
        GetPut(acc, sk, Str(SanitizeTextField(wp, e.val)), k);
      }
    }
  }

  /** Under NoShadow the extra-fields loop never changes a fixed field, whatever
      values the fixed fields start with. */
  lemma {:induction false} ExtrasKeepFixed(p: Plugin, wp: Wp, fixed: seq<Entry>, item: seq<Entry>, n: nat)
    requires n <= |item| && NoShadow(p, wp, item)
    requires forall k :: FixedKey(p, k) ==> Get(fixed, k).Some? && Get(fixed, k).value != Null
    ensures forall k :: FixedKey(p, k) ==> Get(ExtrasUpTo(wp, fixed, item, n), k) == Get(fixed, k)
  {
    if n > 0 {
      var acc := ExtrasUpTo(wp, fixed, item, n - 1);
      var e := item[n - 1];
      ExtrasKeepFixed(p, wp, fixed, item, n - 1);
      assert e.val.Str? && !FixedKey(p, Norm(e.key)) ==> !FixedKey(p, Norm(StrKey(wp.sanitizeKey(KeyText(e.key)))));
      StepKeepsFixed(p, wp, acc, e);
      assert ExtrasUpTo(wp, fixed, item, n) == ExtraStep(wp, acc, e);
    }
  }

  /** Under NoShadow every fixed field of the sanitised item keeps the value computed from the raw item. */
  lemma {:induction false} FixedFieldsSurvive(p: Plugin, wp: Wp, item: seq<Entry>)
    requires NoShadow(p, wp, item)
    ensures forall i :: 0 <= i < 5 ==> Field(SanitizeItem(p, wp, item), FixedNames(p)[i]) == FixedValues(p, wp, item)[i]
  {
    var names := FixedNames(p);
    var vals := FixedValues(p, wp, item);
    forall k | FixedKey(p, k)
      ensures Get(FixedFields(p, wp, item), k).Some? && Get(FixedFields(p, wp, item), k).value != Null
    {
      FixedFieldsLookup(p, wp, item, k);
    }
    ExtrasKeepFixed(p, wp, FixedFields(p, wp, item), item, |item|);
    forall i | 0 <= i < 5
      ensures Field(SanitizeItem(p, wp, item), names[i]) == vals[i]
    {
      assert FixedKey(p, StrKey(names[i]));
      RecordGet(names, vals, names[i]);
      assert IndexOf(names, names[i]) == i;
    }
  }

  /** The defaults and the quantity floor of a sanitised item, when no extra
      field shadows a fixed one. */
  lemma {:induction false} SanitizedItemFields(p: Plugin, wp: Wp, item: seq<Entry>)
    requires NoShadow(p, wp, item)
    ensures var r := SanitizeItem(p, wp, item); var raw := RawFields(p); var out := ItemFields(p);
      && Field(r, out.qty).Int? && Field(r, out.qty).i >= 1
      && Field(r, out.woo).Int? && Field(r, out.woo).i >= 0
      && (Field(item, raw.woo) == Null ==> Field(r, out.woo) == Int(0))
      && (Field(item, raw.cpbId) == Null ==> Field(r, out.cpbId) == Str(""))
      && (Field(item, raw.qty) == Null ==> Field(r, out.qty) == Int(1))
      && (Field(item, raw.price) == Null ==> Field(r, out.price) == Int(0))
      && (Field(item, raw.price) != Null ==> Field(r, out.price).Float?)
      && Field(r, out.custom) == (if Field(item, raw.custom).Str? then Field(item, raw.custom) else Str(""))
  {
    FixedFieldsSurvive(p, wp, item);
    FixedValuesShape(p, wp, item);
    var r := SanitizeItem(p, wp, item);
    var names := FixedNames(p);
    var v := FixedValues(p, wp, item);
    var out := ItemFields(p);
    assert Field(r, out.woo) == v[0] && Field(r, out.cpbId) == v[1] && Field(r, out.qty) == v[2];
    assert Field(r, out.price) == v[3] && Field(r, out.custom) == v[4];
  }

  /** Without NoShadow the floor does not survive: with WordPress's own
      sanitize_key (see CoreSanitizeKeyLowercases), a posted "Quantity": "0"
      ends up as the sanitised quantity, because the extra-fields loop tests
      isset on the raw key "Quantity" but writes to "quantity". */
  lemma QuantityShadowed(wp: Wp)
    requires wp.sanitizeKey("Quantity") == "quantity"
    ensures Field(SanitizeItem(Cpb, wp, [Entry(StrKey("Quantity"), Str("0"))]), "quantity") == Str(wp.textFilter("0"))
  {
    var e := Entry(StrKey("Quantity"), Str("0"));
    assert "Quantity" !in FixedNames(Cpb);
    ExtraKeyOverwrites(wp, FixedNames(Cpb), FixedValues(Cpb, wp, [e]), e);
  }

  /** One string field whose raw key is not among the names already set is
      written under its sanitize_key'd name, whatever field that overwrites. */
  lemma ExtraKeyOverwrites(wp: Wp, names: seq<string>, vals: seq<Value>, e: Entry)
    requires |names| == |vals| && FieldNames(names)
    requires e.key.StrKey? && NonNumericKey(e.key.s) && e.key.s !in names && e.val.Str?
    ensures Field(ExtrasUpTo(wp, Record(names, vals), [e], 1), wp.sanitizeKey(e.key.s)) == Str(SanitizeTextField(wp, e.val))
  {
    var f := Record(names, vals);
    RecordGet(names, vals, e.key.s);
    assert !IsSet(Arr(f), e.key);
    assert ExtrasUpTo(wp, f, [e], 1) == ExtraStep(wp, f, e);
    GetPut(f, StrKey(wp.sanitizeKey(e.key.s)), Str(SanitizeTextField(wp, e.val)), StrKey(wp.sanitizeKey(e.key.s)));
  }

  /** WordPress's own sanitize_key does rename "Quantity" to "quantity". */
  lemma CoreSanitizeKeyLowercases()
    ensures CoreSanitizeKey("Quantity") == "quantity"
  {
    var t := ToLower("Quantity");
    assert LowerChar('Q') == 'q';
    assert t == "quantity";
    assert Filter(t[7..], KeyChar) == "y";
    assert Filter(t[6..], KeyChar) == "ty";
    assert Filter(t[5..], KeyChar) == "ity";
    assert Filter(t[4..], KeyChar) == "tity";
    assert Filter(t[3..], KeyChar) == "ntity";
    assert Filter(t[2..], KeyChar) == "antity";
    assert Filter(t[1..], KeyChar) == "uantity";
  }

  /** CPBWOO's single-item mode: a map of scalars sanitises to no item at all. */
  lemma ScalarMapSanitisesToNothing(p: Plugin, wp: Wp, fields: seq<Entry>)
    requires forall i :: 0 <= i < |fields| ==> !fields[i].val.Arr?
    ensures SanitizeCartItemsArray(p, wp, Arr(fields)) == []
  {
    NoArrayElements(fields);
    OnePerArrayElement(p, wp, fields);
  }
}
