/**
 * How the listing operations rewrite the caller's query filters before the
 * request: drop the caller's page size, force `limit=100`, and add filters
 * built from the operation's own arguments. A filter is an array with a
 * `name` and a `value`; only the filter values matter to the request, since
 * the query string is built by iterating over them.
 */
module Filters {
  import opened PhpValues
  import opened Engine

  /** Which test a listing applies to drop the caller's own page size. */
  datatype LimitTest =
    /** `$item['name'] !== 'limit'`: the filter's name */
    | ByName
    /** `$k !== 'limit'`: the array key, which for a list is an integer */
    | ByKey
    /** `$k !== 'limit' && $v['value'] !== ''` */
    | ByKeyNonBlank

  /** Whether an entry passes the listing's test. */
  predicate Keeps(t: LimitTest, e: Entry)
  {
    match t
    case ByName => Field(e.val, "name") != Str("limit")
    case ByKey => e.key != StrKey("limit")
    case ByKeyNonBlank => e.key != StrKey("limit") && Field(e.val, "value") != Str("")
  }

  /** `array_filter` with the listing's test: the entries it keeps, in order. */
  function Kept(params: seq<Entry>, t: LimitTest): (r: seq<Entry>)
    ensures |r| <= |params|
    ensures forall i :: 0 <= i < |r| ==> Keeps(t, r[i])
  {
    if |params| == 0 then []
    else
      var rest := Kept(params[1..], t);
      if Keeps(t, params[0]) then [params[0]] + rest else rest
  }

  /** The kept entries are exactly the entries that pass the test. */
  lemma {:induction false} KeptMembers(params: seq<Entry>, t: LimitTest)
    ensures forall e :: e in Kept(params, t) <==> e in params && Keeps(t, e)
    decreases |params|
  {
    if |params| > 0 {
      KeptMembers(params[1..], t);
      assert forall e :: e in params <==> e == params[0] || e in params[1..];
    }
  }

  /** A filter array `['name' => name, 'value' => value]`. */
  function FilterOf(name: string, value: Value): Value
  {
    Arr([Entry(StrKey("name"), Str(name)), Entry(StrKey("value"), value)])
  }

  /** The two fields of a filter read back as given. */
  lemma FilterFields(name: string, value: Value)
    ensures Field(FilterOf(name, value), "name") == Str(name)
    ensures Field(FilterOf(name, value), "value") == value
  {
    var es := [Entry(StrKey("name"), Str(name)), Entry(StrKey("value"), value)];
    assert es[1..] == [Entry(StrKey("value"), value)];
    assert StrKey("name") != StrKey("value");
    assert At(es[1..], "value") == value;
    assert At(es, "value") == At(es[1..], "value");
  }


  /** Every key of the array is an integer, as in a list of filters. */
  predicate IntKeys(params: seq<Entry>)
  {
    forall i :: 0 <= i < |params| ==> params[i].key.IntKey?
  }

  /** Filtering distributes over concatenation, so the kept entries stay in their order. */
  lemma {:induction false} KeptAppend(a: seq<Entry>, b: seq<Entry>, t: LimitTest)
    ensures Kept(a + b, t) == Kept(a, t) + Kept(b, t)
    decreases |a|
  {
    if |a| == 0 {
      assert a + b == b;
    } else {
      var ab := a + b;
      assert ab[0] == a[0] && ab[1..] == a[1..] + b;
      KeptAppend(a[1..], b, t);
      var head := if Keeps(t, a[0]) then [a[0]] else [];
      assert Kept(ab, t) == head + Kept(ab[1..], t);
      assert Kept(a, t) == head + Kept(a[1..], t);
      assert head + (Kept(a[1..], t) + Kept(b, t)) == (head + Kept(a[1..], t)) + Kept(b, t);
    }
  }

  /** Testing the key keeps a list of filters whole: no integer key is the string "limit". */
  lemma {:induction false} KeptByKeyKeepsAll(params: seq<Entry>)
    requires IntKeys(params)
    ensures Kept(params, ByKey) == params
    decreases |params|
  {
    if |params| > 0 {
      assert IntKeys(params[1..]) by {
        forall i | 0 <= i < |params[1..]| ensures params[1..][i].key.IntKey? {
          assert params[1..][i] == params[i + 1];
        }
      }
      KeptByKeyKeepsAll(params[1..]);
      assert params == [params[0]] + params[1..];
    }
  }

  /**
   * On a list, the key-and-blank test keeps, in order, exactly the entries
   * whose `value` is not the empty string: one more entry is kept last when
   * its value is not "", and dropped otherwise.
   */
  lemma KeptByKeyNonBlank(a: seq<Entry>, e: Entry)
    requires e.key.IntKey?
    ensures Kept(a + [e], ByKeyNonBlank) ==
      Kept(a, ByKeyNonBlank) + (if Field(e.val, "value") != Str("") then [e] else [])
  {
    KeptAppend(a, [e], ByKeyNonBlank);
    assert [e][1..] == [];
  }

  /** The page size every listing forces. */
  function LimitFilter(): Value
  {
    FilterOf("limit", Int(100))
  }

  /**
   * `listaClientes` and the other listings that test the filter name: the
   * caller's filters not named "limit", then the forced page size last.
   */
  function ListFilters(params: seq<Entry>): (fs: seq<Value>)
    ensures |fs| >= 1 && fs[|fs| - 1] == LimitFilter()
    ensures NoLimitNames(fs[..|fs| - 1])
    ensures fs[..|fs| - 1] == Values(Kept(params, ByName))
  {
    KeptByNameHasNoLimit(params);
    var fs := Values(Kept(params, ByName)) + [LimitFilter()];
    assert fs[..|fs| - 1] == Values(Kept(params, ByName));
    fs
  }

  /**
   * `listaEmpresas` tests the key: a list of caller filters is kept whole,
   * `limit` included, and the forced page size follows it.
   */
  function EmpresasFilters(params: seq<Entry>): (fs: seq<Value>)
    ensures |fs| >= 1 && fs[|fs| - 1] == LimitFilter()
    ensures IntKeys(params) ==> fs == Values(params) + [LimitFilter()]
  {
    assert IntKeys(params) ==> Kept(params, ByKey) == params by {
      if IntKeys(params) {
        KeptByKeyKeepsAll(params);
      }
    }
    Values(Kept(params, ByKey)) + [LimitFilter()]
  }

  /**
   * `consultaExtrato`: the caller's filters whose value is not "", then the
   * forced page size, then the period read from `dados`.
   */
  function ExtratoFilters(dados: seq<Entry>, params: seq<Entry>): (fs: seq<Value>)
    ensures |fs| >= 3
    ensures forall i :: 0 <= i < |fs| - 3 ==> Field(fs[i], "value") != Str("")
    ensures fs[..|fs| - 3] == Values(Kept(params, ByKeyNonBlank))
    ensures fs[|fs| - 3] == LimitFilter()
    ensures fs[|fs| - 2] == FilterOf("startDate", At(dados, "startDate"))
    ensures fs[|fs| - 1] == FilterOf("finishDate", At(dados, "finishDate"))
  {
    var kept := Kept(params, ByKeyNonBlank);
    Values(kept)
      + [LimitFilter()]
      + [FilterOf("startDate", At(dados, "startDate"))]
      + [FilterOf("finishDate", At(dados, "finishDate"))]
  }

  /**
   * `listaCobrancas`: the caller's filters whose value is not "", then the
   * forced page size, customer, due-date range and status read from `dados`.
   */
  function CobrancasFilters(dados: seq<Entry>, params: seq<Entry>): (fs: seq<Value>)
    ensures |fs| >= 5
    ensures forall i :: 0 <= i < |fs| - 5 ==> Field(fs[i], "value") != Str("")
    ensures fs[..|fs| - 5] == Values(Kept(params, ByKeyNonBlank))
    ensures fs[|fs| - 5] == LimitFilter()
    ensures fs[|fs| - 4] == FilterOf("customer", At(dados, "customer"))
    ensures fs[|fs| - 3] == FilterOf("dueDate[ge]", At(dados, "dueDateStart"))
    ensures fs[|fs| - 2] == FilterOf("dueDate[le]", At(dados, "dueDateEnd"))
    ensures fs[|fs| - 1] == FilterOf("status", At(dados, "status"))
  {
    var kept := Kept(params, ByKeyNonBlank);
    Values(kept)
      + [LimitFilter()]
      + [FilterOf("customer", At(dados, "customer"))]
      + [FilterOf("dueDate[ge]", At(dados, "dueDateStart"))]
      + [FilterOf("dueDate[le]", At(dados, "dueDateEnd"))]
      + [FilterOf("status", At(dados, "status"))]
  }

  /** The forced page size survives and is sent as `limit=100`. */
  lemma LimitPair()
    ensures Pair(LimitFilter()) == Ok(Some(("limit", "100")))
  {
    assert Field(LimitFilter(), "name") == Str("limit");
    assert Field(LimitFilter(), "value") == Int(100);
    assert NatToString(100) == "100" by {
      assert NatToString(10) == "10";
    }
  }

  /** Only the string "limit" itself converts to the string "limit". */
  lemma OnlyLimitIsLimit(v: Value)
    requires ToPhpString(v) == Some("limit")
    ensures v == Str("limit")
  {
    assert "limit"[0] == 'l';
  }

  /** No filter of the list is named "limit". */
  predicate NoLimitNames(fs: seq<Value>)
  {
    forall i :: 0 <= i < |fs| ==> Field(fs[i], "name") != Str("limit")
  }

  /** A list with no filter named "limit" sends no `limit` pair. */
  lemma NoLimitPairs(fs: seq<Value>)
    requires NoLimitNames(fs) && Pairs(fs).Ok?
    ensures forall i :: 0 <= i < |Pairs(fs).value| ==> Pairs(fs).value[i].0 != "limit"
  {
    var ps := Pairs(fs).value;
    PairsOfSurvivors(fs);
    forall i | 0 <= i < |ps| ensures ps[i].0 != "limit" {
      var f := Survivors(fs)[i];
      assert f in fs;
      if ps[i].0 == "limit" {
        OnlyLimitIsLimit(Field(f, "name"));
      }
    }
  }

  /** Filtering by name leaves no filter named "limit". */
  lemma KeptByNameHasNoLimit(params: seq<Entry>)
    ensures NoLimitNames(Values(Kept(params, ByName)))
  {
    var kept := Kept(params, ByName);
    assert forall i :: 0 <= i < |kept| ==> Field(Values(kept)[i], "name") != Str("limit");
  }

  /**
   * The listings that test the name send exactly one `limit`, the forced
   * `limit=100`, last: every caller filter named "limit" is gone.
   */
  lemma ListFiltersForceLimit(params: seq<Entry>)
    requires Pairs(ListFilters(params)).Ok?
    ensures var ps := Pairs(ListFilters(params)).value;
      |ps| >= 1 && ps[|ps| - 1] == ("limit", "100") &&
      forall i :: 0 <= i < |ps| - 1 ==> ps[i].0 != "limit"
  {
    var kept := Values(Kept(params, ByName));
    LimitPair();
    PairsFatal(kept + [LimitFilter()]);
    PairsFatal(kept);
    PairsAppend(kept, LimitFilter(), ("limit", "100"));
    KeptByNameHasNoLimit(params);
    NoLimitPairs(kept);
  }

  /** A caller filter with the value "0" is kept by the listing but dropped from the query, as `empty("0")` holds. */
  lemma ZeroValueDropped(name: string)
    ensures Keeps(ByKeyNonBlank, Entry(IntKey(0), FilterOf(name, Str("0"))))
    ensures Pair(FilterOf(name, Str("0"))) == Ok(None)
  {
  }

  /**
   * What a filter the listing builds itself, named by a non-empty word,
   * adds to the query: nothing when its value is empty, and otherwise its
   * name with the value as a string.
   */
  function Sent(name: string, v: Value): seq<(string, string)>
  {
    if IsEmpty(v) then []
    else
      match ToPhpString(v)
      case Some(s) => [(name, s)]
      case None => []
  }

  /** Appending a filter the listing builds adds exactly its `Sent` pairs. */
  lemma PairsSnocFilter(fs: seq<Value>, name: string, v: Value)
    requires name != "" && name != "0"
    requires Pairs(fs + [FilterOf(name, v)]).Ok?
    ensures Pairs(fs).Ok?
    ensures Pairs(fs + [FilterOf(name, v)]) == Ok(Pairs(fs).value + Sent(name, v))
  {
    FilterFields(name, v);
    assert (fs + [FilterOf(name, v)])[..|fs|] == fs;
    if IsEmpty(v) {
      assert Pairs(fs).value + [] == Pairs(fs).value;
    }
  }

  /** A filter with a non-empty name and a non-empty string value is sent as that pair. */
  lemma FilterPair(name: string, value: string)
    requires !IsEmpty(Str(name)) && !IsEmpty(Str(value))
    ensures Pair(FilterOf(name, Str(value))) == Ok(Some((name, value)))
  {
    FilterFields(name, Str(value));
  }

  /**
   * `consultaExtrato` sends the caller's kept pairs, then `limit=100`, then
   * `startDate` and `finishDate` from `dados`, in that order; a date that is
   * absent or empty contributes no pair.
   */
  lemma ExtratoFiltersOrder(dados: seq<Entry>, params: seq<Entry>)
    requires Pairs(ExtratoFilters(dados, params)).Ok?
    ensures Pairs(Values(Kept(params, ByKeyNonBlank))).Ok?
    ensures Pairs(ExtratoFilters(dados, params)) ==
      Ok(Pairs(Values(Kept(params, ByKeyNonBlank))).value + [("limit", "100")]
         + Sent("startDate", At(dados, "startDate")) + Sent("finishDate", At(dados, "finishDate")))
  {
    var kept := Values(Kept(params, ByKeyNonBlank));
    var start := At(dados, "startDate");
    var finish := At(dados, "finishDate");
    PairsSnocFilter(kept + [LimitFilter()] + [FilterOf("startDate", start)], "finishDate", finish);
    PairsSnocFilter(kept + [LimitFilter()], "startDate", start);
    PairsSnocFilter(kept, "limit", Int(100));
    LimitSent();
  }

  /**
   * `listaCobrancas` sends the caller's kept pairs, then `limit=100`, then
   * customer, `dueDate[ge]`, `dueDate[le]` and status from `dados`, in that
   * order; a field of `dados` that is absent or empty contributes no pair.
   */
  lemma CobrancasFiltersOrder(dados: seq<Entry>, params: seq<Entry>)
    requires Pairs(CobrancasFilters(dados, params)).Ok?
    ensures Pairs(Values(Kept(params, ByKeyNonBlank))).Ok?
    ensures Pairs(CobrancasFilters(dados, params)) ==
      Ok(Pairs(Values(Kept(params, ByKeyNonBlank))).value + [("limit", "100")]
         + Sent("customer", At(dados, "customer")) + Sent("dueDate[ge]", At(dados, "dueDateStart"))
         + Sent("dueDate[le]", At(dados, "dueDateEnd")) + Sent("status", At(dados, "status")))
  {
    var kept := Values(Kept(params, ByKeyNonBlank));
    PairsSnocFour(kept + [LimitFilter()], "customer", At(dados, "customer"), "dueDate[ge]", At(dados, "dueDateStart"),
                  "dueDate[le]", At(dados, "dueDateEnd"), "status", At(dados, "status"));
    PairsSnocFilter(kept, "limit", Int(100));
    LimitSent();
  }

  /** Four filters the listing builds, appended one by one, add their `Sent` pairs one by one. */
  lemma PairsSnocFour(fs: seq<Value>, n1: string, v1: Value, n2: string, v2: Value,
                      n3: string, v3: Value, n4: string, v4: Value)
    requires n1 != "" && n1 != "0" && n2 != "" && n2 != "0" && n3 != "" && n3 != "0" && n4 != "" && n4 != "0"
    requires Pairs(fs + [FilterOf(n1, v1)] + [FilterOf(n2, v2)] + [FilterOf(n3, v3)] + [FilterOf(n4, v4)]).Ok?
    ensures Pairs(fs).Ok?
    ensures Pairs(fs + [FilterOf(n1, v1)] + [FilterOf(n2, v2)] + [FilterOf(n3, v3)] + [FilterOf(n4, v4)]) ==
      Ok(Pairs(fs).value + Sent(n1, v1) + Sent(n2, v2) + Sent(n3, v3) + Sent(n4, v4))
  {
    var g1 := fs + [FilterOf(n1, v1)];
    var g2 := g1 + [FilterOf(n2, v2)];
    var g3 := g2 + [FilterOf(n3, v3)];
    PairsSnocFilter(g3, n4, v4);
    PairsSnocFilter(g2, n3, v3);
    PairsSnocFilter(g1, n2, v2);
    PairsSnocFilter(fs, n1, v1);
  }

  /** The forced page size adds the one pair `limit=100`. */
  lemma LimitSent()
    ensures Sent("limit", Int(100)) == [("limit", "100")]
  {
    assert NatToString(100) == "100" by {
      assert NatToString(10) == "10";
    }
  }

  /** A surviving filter of a list that is sent contributes its pair to the query. */
  lemma SurvivorSent(fs: seq<Value>, i: int)
    requires Pairs(fs).Ok? && 0 <= i < |fs| && Survives(fs[i])
    ensures Pair(fs[i]).Ok? && Pair(fs[i]).value.Some?
    ensures Pair(fs[i]).value.value in Pairs(fs).value
  {
    PairsOfSurvivors(fs);
    assert fs[i] in Survivors(fs);
    var j :| 0 <= j < |Survivors(fs)| && Survivors(fs)[j] == fs[i];
    assert Pair(Survivors(fs)[j]) == Ok(Some(Pairs(fs).value[j]));
  }

  /** The key tests keep a surviving caller filter of a list, so its pair is among the kept pairs. */
  lemma CallerPairKept(params: seq<Entry>, i: int, t: LimitTest)
    requires t != ByName && IntKeys(params) && 0 <= i < |params| && Survives(params[i].val)
    requires Pairs(Values(Kept(params, t))).Ok?
    ensures Pair(params[i].val).Ok? && Pair(params[i].val).value.Some?
    ensures Pair(params[i].val).value.value in Pairs(Values(Kept(params, t))).value
  {
    var kept := Kept(params, t);
    KeptMembers(params, t);
    assert Keeps(t, params[i]);
    assert params[i] in params;
    assert params[i] in kept;
    var j :| 0 <= j < |kept| && kept[j] == params[i];
    SurvivorSent(Values(kept), j);
  }

  /**
   * With integer keys, `listaEmpresas` sends the pairs of every caller
   * filter, then `limit=100`: the key test drops nothing.
   */
  lemma EmpresasFiltersKeepAll(params: seq<Entry>)
    requires IntKeys(params) && Pairs(EmpresasFilters(params)).Ok?
    ensures Pairs(Values(params)).Ok?
    ensures Pairs(EmpresasFilters(params)) == Ok(Pairs(Values(params)).value + [("limit", "100")])
  {
    PairsSnocFilter(Values(params), "limit", Int(100));
    LimitSent();
  }

  /**
   * `listaEmpresas` tests the array key, and a list of filters has integer
   * keys: a caller's own `limit` filter is kept and sent before the forced
   * `limit=100`, so the query carries two page sizes.
   */
  lemma ByKeyKeepsCallerLimit(params: seq<Entry>, i: int)
    requires IntKeys(params) && 0 <= i < |params|
    requires Field(params[i].val, "name") == Str("limit") && Survives(params[i].val)
    requires Pairs(EmpresasFilters(params)).Ok?
    ensures Pair(params[i].val).Ok? && Pair(params[i].val).value.Some?
    ensures var ps := Pairs(EmpresasFilters(params)).value;
      var caller := Pair(params[i].val).value.value;
      caller.0 == "limit" && |ps| >= 2 && caller in ps[..|ps| - 1] && ps[|ps| - 1] == ("limit", "100")
  {
    EmpresasFiltersKeepAll(params);
    KeptByKeyKeepsAll(params);
    CallerPairKept(params, i, ByKey);
    var ps := Pairs(EmpresasFilters(params)).value;
    assert ps[..|ps| - 1] == Pairs(Values(params)).value;
  }

  /**
   * The same holds for `consultaExtrato`: a caller's `limit` filter with a
   * non-empty value is sent before the forced `limit=100`.
   */
  lemma ExtratoKeepsCallerLimit(dados: seq<Entry>, params: seq<Entry>, i: int)
    requires IntKeys(params) && 0 <= i < |params|
    requires Field(params[i].val, "name") == Str("limit") && Survives(params[i].val)
    requires Pairs(ExtratoFilters(dados, params)).Ok?
    ensures Pair(params[i].val).Ok? && Pair(params[i].val).value.Some?
    ensures var ps := Pairs(ExtratoFilters(dados, params)).value;
      var caller := Pair(params[i].val).value.value;
      caller.0 == "limit" &&
      exists j, k :: 0 <= j < k < |ps| && ps[j] == caller && ps[k] == ("limit", "100")
  {
    ExtratoFiltersOrder(dados, params);
    CallerPairKept(params, i, ByKeyNonBlank);
    var kept := Pairs(Values(Kept(params, ByKeyNonBlank))).value;
    var ps := Pairs(ExtratoFilters(dados, params)).value;
    var t := kept + [("limit", "100")];
    var t1 := t + Sent("startDate", At(dados, "startDate"));
    assert ps == t1 + Sent("finishDate", At(dados, "finishDate"));
    var j :| 0 <= j < |kept| && kept[j] == Pair(params[i].val).value.value;
    assert ps[j] == t1[j] == t[j] == kept[j];
    assert ps[|kept|] == t1[|kept|] == t[|kept|];
  }

  /**
   * And for `listaCobrancas`: a caller's `limit` filter with a non-empty
   * value is sent before the forced `limit=100`.
   */
  lemma CobrancasKeepsCallerLimit(dados: seq<Entry>, params: seq<Entry>, i: int)
    requires IntKeys(params) && 0 <= i < |params|
    requires Field(params[i].val, "name") == Str("limit") && Survives(params[i].val)
    requires Pairs(CobrancasFilters(dados, params)).Ok?
    ensures Pair(params[i].val).Ok? && Pair(params[i].val).value.Some?
    ensures var ps := Pairs(CobrancasFilters(dados, params)).value;
      var caller := Pair(params[i].val).value.value;
      caller.0 == "limit" &&
      exists j, k :: 0 <= j < k < |ps| && ps[j] == caller && ps[k] == ("limit", "100")
  {
    CobrancasFiltersOrder(dados, params);
    CallerPairKept(params, i, ByKeyNonBlank);
    var kept := Pairs(Values(Kept(params, ByKeyNonBlank))).value;
    var ps := Pairs(CobrancasFilters(dados, params)).value;
    var t := kept + [("limit", "100")];
    var t1 := t + Sent("customer", At(dados, "customer"));
    var t2 := t1 + Sent("dueDate[ge]", At(dados, "dueDateStart"));
    var t3 := t2 + Sent("dueDate[le]", At(dados, "dueDateEnd"));
    assert ps == t3 + Sent("status", At(dados, "status"));
    var j :| 0 <= j < |kept| && kept[j] == Pair(params[i].val).value.value;
    assert ps[j] == t3[j] == t2[j] == t1[j] == t[j] == kept[j];
    assert ps[|kept|] == t3[|kept|] == t2[|kept|] == t1[|kept|] == t[|kept|];
  }
}
