/** `getCustomHeaders`: the numbered header scan. Names are read from
    `httpHeaderName1`, `httpHeaderName2`, … in the JSON data and values from
    `httpHeaderValue1`, … in the decrypted secure data; the scan stops at the
    first index whose name is empty or missing. */
module Headers {
  import opened Outcomes
  import opened Json
  import opened Decimal
  import opened Models

  const NamePrefix: string := "httpHeaderName"
  const ValuePrefix: string := "httpHeaderValue"

  function NameKey(i: nat): string { NamePrefix + Itoa(i) }

  function ValueKey(i: nat): string { ValuePrefix + Itoa(i) }

  /** The header name configured at index `i` ("" when missing or not a string). */
  function NameAt(json: Object, i: nat): string
  {
    MustString(Get(json, NameKey(i)))
  }

  /** Every index from 1 up to (not including) `k` has a non-empty name. */
  ghost predicate NamedBelow(json: Object, k: nat)
  {
    forall i :: 1 <= i < k ==> NameAt(json, i) != ""
  }

  /** Index `i` contributes header `name`: its name is `name` and its value key
      exists in the decrypted data. */
  ghost predicate Supplies(json: Object, dec: map<string, string>, i: nat, name: string)
  {
    NameAt(json, i) == name && ValueKey(i) in dec
  }

  /** `i` is the last index below `k` that contributes `name`. */
  ghost predicate LastSupplier(json: Object, dec: map<string, string>, k: nat, name: string, i: nat)
  {
    1 <= i < k && Supplies(json, dec, i, name)
    && forall j :: i < j < k ==> !Supplies(json, dec, j, name)
  }

  /** `h` is what the scan has gathered from indices 1 .. k-1: exactly the
      contributed names, each with the value of its last contributor. */
  ghost predicate Collected(json: Object, dec: map<string, string>, k: nat, h: map<string, string>)
  {
    && (forall name :: name in h <==> exists i :: 1 <= i < k && Supplies(json, dec, i, name))
    && (forall name, i :: name in h && LastSupplier(json, dec, k, name, i) ==> h[name] == dec[ValueKey(i)])
  }

  lemma NameKeyInjective(a: nat, b: nat)
    requires NameKey(a) == NameKey(b)
    ensures a == b
  {
    assert Itoa(a) == NameKey(a)[|NamePrefix|..];
    assert Itoa(b) == NameKey(b)[|NamePrefix|..];
    ItoaInjective(a, b);
  }

  function NameKeysUpTo(k: nat): set<string>
  {
    set i | 1 <= i <= k :: NameKey(i)
  }

  lemma {:induction false} NameKeysUpToSize(k: nat)
    ensures |NameKeysUpTo(k)| == k
  {
    if k > 0 {
      NameKeysUpToSize(k - 1);
      assert NameKeysUpTo(k) == NameKeysUpTo(k - 1) + {NameKey(k)};
      if NameKey(k) in NameKeysUpTo(k - 1) {
        var i :| 1 <= i <= k - 1 && NameKey(i) == NameKey(k);
        NameKeyInjective(i, k);
      }
    }
  }

  lemma NameKeysPresent(json: Object, k: nat)
    requires NamedBelow(json, k + 1)
    ensures NameKeysUpTo(k) <= json.Keys
  {
    forall key | key in NameKeysUpTo(k)
      ensures key in json.Keys
    {
      var i :| 1 <= i <= k && key == NameKey(i);
      assert NameAt(json, i) != "";
    }
  }

  lemma {:induction false} SubsetSize<T>(a: set<T>, b: set<T>)
    requires a <= b
    ensures |a| <= |b|
    decreases |b|
  {
    if a != {} {
      var x :| x in a;
      SubsetSize(a - {x}, b - {x});
    }
  }

  /** Each named index occupies its own key of the JSON object, so a run of
      `k` named indices needs at least `k` keys: the scan is bounded. */
  lemma NamedRunBound(json: Object, k: nat)
    requires NamedBelow(json, k + 1)
    ensures k <= |json|
  {
    NameKeysPresent(json, k);
    NameKeysUpToSize(k);
    SubsetSize(NameKeysUpTo(k), json.Keys);
    assert |json.Keys| == |json|;
  }

  /** The first index at or after `index` whose name is empty. */
  function FirstGapFrom(json: Object, index: nat): (g: nat)
    requires 1 <= index && NamedBelow(json, index)
    ensures index <= g && NameAt(json, g) == "" && NamedBelow(json, g)
    decreases |json| + 1 - index
  {
    if NameAt(json, index) == "" then index
    else
      NamedRunBound(json, index);
      FirstGapFrom(json, index + 1)
  }

  /** The index where the scan stops. */
  function FirstGap(json: Object): (g: nat)
    ensures 1 <= g && NameAt(json, g) == "" && NamedBelow(json, g)
  {
    FirstGapFrom(json, 1)
  }

  /** One iteration of the loop body for a non-empty name. */
  function Visit(json: Object, dec: map<string, string>, index: nat, acc: map<string, string>): map<string, string>
  {
    if ValueKey(index) in dec then acc[NameAt(json, index) := dec[ValueKey(index)]] else acc
  }

  lemma VisitKeys(json: Object, dec: map<string, string>, index: nat, acc: map<string, string>, name: string)
    requires 1 <= index && NameAt(json, index) != ""
    requires Collected(json, dec, index, acc)
    ensures name in Visit(json, dec, index, acc) <==> exists i :: 1 <= i < index + 1 && Supplies(json, dec, i, name)
  {
    var h := Visit(json, dec, index, acc);
    if Supplies(json, dec, index, name) {
      assert name == NameAt(json, index) && name in h;
    } else {
      assert name in h <==> name in acc;
      if name in acc {
        var i :| 1 <= i < index && Supplies(json, dec, i, name);
        assert 1 <= i < index + 1;
      }
      if exists i :: 1 <= i < index + 1 && Supplies(json, dec, i, name) {
        var i :| 1 <= i < index + 1 && Supplies(json, dec, i, name);
        assert i < index;
      }
    }
  }

  lemma VisitValues(json: Object, dec: map<string, string>, index: nat, acc: map<string, string>, name: string, i: nat)
    requires 1 <= index && NameAt(json, index) != ""
    requires Collected(json, dec, index, acc)
    requires name in Visit(json, dec, index, acc) && LastSupplier(json, dec, index + 1, name, i)
    ensures Visit(json, dec, index, acc)[name] == dec[ValueKey(i)]
  {
    if i < index {
      assert !Supplies(json, dec, index, name);
      assert LastSupplier(json, dec, index, name, i);
    }
  }

  lemma VisitCollects(json: Object, dec: map<string, string>, index: nat, acc: map<string, string>)
    requires 1 <= index && NameAt(json, index) != ""
    requires Collected(json, dec, index, acc)
    ensures Collected(json, dec, index + 1, Visit(json, dec, index, acc))
  {
    var h := Visit(json, dec, index, acc);
    forall name
      ensures name in h <==> exists i :: 1 <= i < index + 1 && Supplies(json, dec, i, name)
    {
      VisitKeys(json, dec, index, acc, name);
    }
    forall name, i: nat | name in h && LastSupplier(json, dec, index + 1, name, i)
      ensures h[name] == dec[ValueKey(i)]
    {
      VisitValues(json, dec, index, acc, name, i);
    }
  }

  /** The loop of `getCustomHeaders` from `index` on, with headers `acc`
      gathered so far. */
  function Scan(json: Object, dec: map<string, string>, index: nat, acc: map<string, string>): (h: map<string, string>)
    requires 1 <= index && NamedBelow(json, index)
    requires Collected(json, dec, index, acc)
    ensures Collected(json, dec, FirstGapFrom(json, index), h)
    decreases |json| + 1 - index
  {
    if NameAt(json, index) == "" then acc
    else
      NamedRunBound(json, index);
      VisitCollects(json, dec, index, acc);
      Scan(json, dec, index + 1, Visit(json, dec, index, acc))
  }

  /** `getCustomHeaders` over the JSON data and the decrypted secure data. */
  function CustomHeaders(jsonData: Option<Object>, dec: map<string, string>): (h: map<string, string>)
    ensures jsonData.None? ==> h == map[]
    ensures jsonData.Some? ==> Collected(jsonData.value, dec, FirstGap(jsonData.value), h)
  {
    if jsonData.None? then map[] else Scan(jsonData.value, dec, 1, map[])
  }

  /** `ds.getCustomHeaders()`: decrypts the secure data directly, bypassing
      the decryption cache. */
  function GetCustomHeaders(ds: DataSource, decrypt: Decryptor): (h: map<string, string>)
    ensures ds.jsonData.None? ==> h == map[]
    ensures ds.jsonData.Some? ==>
      Collected(ds.jsonData.value, decrypt(ds.secureJsonData), FirstGap(ds.jsonData.value), h)
  {
    CustomHeaders(ds.jsonData, decrypt(ds.secureJsonData))
  }

  /** Every contributed name has a last contributor below `k`. */
  lemma {:induction false} LastSupplierExists(json: Object, dec: map<string, string>, k: nat, name: string, i: nat)
    requires 1 <= i < k && Supplies(json, dec, i, name)
    ensures exists j :: LastSupplier(json, dec, k, name, j)
    decreases k - i
  {
    if !LastSupplier(json, dec, k, name, i) {
      var j :| i < j < k && Supplies(json, dec, j, name);
      LastSupplierExists(json, dec, k, name, j);
    }
  }

  /** Later indices overwrite earlier ones: each header carries the value of
      the last index before the gap that names it. */
  lemma HeaderValueIsLastWritten(json: Object, dec: map<string, string>, name: string)
    ensures name in CustomHeaders(Some(json), dec) ==> exists i ::
      (LastSupplier(json, dec, FirstGap(json), name, i)
       && CustomHeaders(Some(json), dec)[name] == dec[ValueKey(i)])
  {
    if name in CustomHeaders(Some(json), dec) {
      var k := FirstGap(json);
      var i :| 1 <= i < k && Supplies(json, dec, i, name);
      LastSupplierExists(json, dec, k, name, i);
    }
  }

  /** The scan never reads past the gap: two JSON objects whose names agree
      up to the gap yield the same headers, whatever follows. */
  lemma {:induction false} ScanIgnoresPastGap(json: Object, json': Object, dec: map<string, string>, index: nat, acc: map<string, string>)
    requires 1 <= index && NamedBelow(json, index) && NamedBelow(json', index)
    requires Collected(json, dec, index, acc) && Collected(json', dec, index, acc)
    requires forall i :: index <= i <= FirstGapFrom(json, index) ==> NameAt(json', i) == NameAt(json, i)
    ensures FirstGapFrom(json', index) == FirstGapFrom(json, index)
    ensures Scan(json', dec, index, acc) == Scan(json, dec, index, acc)
    decreases |json| + 1 - index
  {
    if NameAt(json, index) != "" {
      NamedRunBound(json, index);
      VisitCollects(json, dec, index, acc);
      VisitCollects(json', dec, index, acc);
      assert Visit(json', dec, index, acc) == Visit(json, dec, index, acc);
      ScanIgnoresPastGap(json, json', dec, index + 1, Visit(json, dec, index, acc));
    }
  }

  lemma {:induction false} HeadersIgnorePastGap(json: Object, json': Object, dec: map<string, string>)
    requires forall i :: 1 <= i <= FirstGap(json) ==> NameAt(json', i) == NameAt(json, i)
    ensures CustomHeaders(Some(json'), dec) == CustomHeaders(Some(json), dec)
  {
    ScanIgnoresPastGap(json, json', dec, 1, map[]);
  }
}
