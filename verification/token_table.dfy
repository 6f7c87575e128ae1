/**
 * Lookup tables of (token, value) rows searched front to back, as the
 * string tables of the shader-description serializer are: the first row
 * whose token (or value) matches wins, and a miss yields a fixed default.
 *
 * Facts about a particular table are stated through the predicates below
 * and combined by the generic lemmas of this module, so that no proof about
 * a concrete table has to search it row by row.
 */
module TokenTable {

  type Table<V> = seq<(string, V)>

  datatype Option<T> = None | Some(value: T)

  /** The value of the first row whose token is `token`, or `absent`. */
  function ValueOf<V>(tab: Table<V>, token: string, absent: V): V
  {
    if |tab| == 0 then absent
    else if tab[0].0 == token then tab[0].1
    else ValueOf(tab[1..], token, absent)
  }

  /** The token of the first row whose value is `v`, or the empty string. */
  function TokenOf<V(==)>(tab: Table<V>, v: V): string
  {
    if |tab| == 0 then ""
    else if tab[0].1 == v then tab[0].0
    else TokenOf(tab[1..], v)
  }

  /** Some row of `tab` carries `token`. */
  ghost predicate HasToken<V>(tab: Table<V>, token: string)
  {
    |tab| > 0 && (tab[0].0 == token || HasToken(tab[1..], token))
  }

  /** Some row of `tab` carries `v`. */
  ghost predicate HasValue<V>(tab: Table<V>, v: V)
  {
    |tab| > 0 && (tab[0].1 == v || HasValue(tab[1..], v))
  }

  /** No row of `tab` carries `v`. */
  ghost predicate Lacks<V>(tab: Table<V>, v: V)
  {
    forall e :: e in tab ==> e.1 != v
  }

  /** `classify` recovers every row's value from its token, except on rows whose value is `skip`. */
  ghost predicate NamedBy<V>(tab: Table<V>, classify: string -> V, skip: Option<V>)
  {
    forall e :: e in tab && (skip.None? || e.1 != skip.value) ==> classify(e.0) == e.1
  }

  /** Every row carrying `v` has the token `k`. */
  ghost predicate OnlyToken<V>(tab: Table<V>, v: V, k: string)
  {
    forall e :: e in tab && e.1 == v ==> e.0 == k
  }

  /** The token found for a tabled value is the token of a row carrying it. */
  lemma {:induction false} TokenOfFound<V>(tab: Table<V>, v: V)
    requires HasValue(tab, v)
    ensures (TokenOf(tab, v), v) in tab
  {
    if tab[0].1 != v {
      TokenOfFound(tab[1..], v);
    }
  }

  /** The value found for a tabled token is the value of a row carrying it. */
  lemma {:induction false} ValueOfFound<V>(tab: Table<V>, token: string, absent: V)
    requires HasToken(tab, token)
    ensures (token, ValueOf(tab, token, absent)) in tab
  {
    if tab[0].0 != token {
      ValueOfFound(tab[1..], token, absent);
    }
  }

  /** A row's token is a token of the table. */
  lemma {:induction false} RowHasToken<V>(tab: Table<V>, e: (string, V))
    requires e in tab
    ensures HasToken(tab, e.0)
  {
    if tab[0] != e {
      RowHasToken(tab[1..], e);
    }
  }

  /** Row `i` witnesses its value. */
  lemma {:induction false} RowHasValue<V>(tab: Table<V>, i: nat)
    requires i < |tab|
    ensures HasValue(tab, tab[i].1)
  {
    if i > 0 {
      RowHasValue(tab[1..], i - 1);
    }
  }

  lemma {:induction false} HasValueAppend<V>(a: Table<V>, b: Table<V>, v: V)
    ensures HasValue(a + b, v) <==> HasValue(a, v) || HasValue(b, v)
  {
    if |a| > 0 {
      assert (a + b)[1..] == a[1..] + b;
      HasValueAppend(a[1..], b, v);
    } else {
      assert a + b == b;
    }
  }

  /** A missed token yields the default. */
  lemma {:induction false} ValueOfMissing<V>(tab: Table<V>, token: string, absent: V)
    requires !HasToken(tab, token)
    ensures ValueOf(tab, token, absent) == absent
  {
    if |tab| > 0 {
      ValueOfMissing(tab[1..], token, absent);
    }
  }

  /** A missed value yields the empty token. */
  lemma {:induction false} TokenOfMissing<V>(tab: Table<V>, v: V)
    requires Lacks(tab, v)
    ensures !HasValue(tab, v) && TokenOf(tab, v) == ""
  {
    if |tab| > 0 {
      assert tab[0] in tab;
      assert forall e :: e in tab[1..] ==> e in tab;
      TokenOfMissing(tab[1..], v);
    }
  }

  /** Row `i` is the first row carrying `token`, so it decides the lookup. */
  lemma {:induction false} ValueOfFirstRow<V>(tab: Table<V>, i: nat, token: string, absent: V)
    requires i < |tab| && tab[i].0 == token
    requires forall j :: 0 <= j < i ==> tab[j].0 != token
    ensures ValueOf(tab, token, absent) == tab[i].1
  {
    if i > 0 {
      ValueOfFirstRow(tab[1..], i - 1, token, absent);
    }
  }

  lemma NamedByAppend<V>(a: Table<V>, b: Table<V>, classify: string -> V, skip: Option<V>)
    requires NamedBy(a, classify, skip) && NamedBy(b, classify, skip)
    ensures NamedBy(a + b, classify, skip)
  {
  }

  lemma OnlyTokenAppend<V>(a: Table<V>, b: Table<V>, v: V, k: string)
    requires OnlyToken(a, v, k) && OnlyToken(b, v, k)
    ensures OnlyToken(a + b, v, k)
  {
  }

  lemma LacksAppend<V>(a: Table<V>, b: Table<V>, v: V)
    requires Lacks(a, v) && Lacks(b, v)
    ensures Lacks(a + b, v)
  {
  }

  /**
   * When tokens determine values, looking up the token found for a tabled
   * value gives that value back.
   */
  lemma RoundTrip<V>(tab: Table<V>, classify: string -> V, v: V, absent: V)
    requires NamedBy(tab, classify, None) && HasValue(tab, v)
    ensures ValueOf(tab, TokenOf(tab, v), absent) == v
  {
    TokenOfFound(tab, v);
    RowHasToken(tab, (TokenOf(tab, v), v));
    ValueOfFound(tab, TokenOf(tab, v), absent);
  }

  /**
   * The same when rows carrying `w` are not named by `classify` and all carry
   * the token `k`: a value other than `w` that `classify` does not give to `k`
   * still comes back.
   */
  lemma RoundTripAvoiding<V>(tab: Table<V>, classify: string -> V, w: V, k: string, v: V, absent: V)
    requires NamedBy(tab, classify, Some(w)) && OnlyToken(tab, w, k)
    requires HasValue(tab, v) && v != w && classify(k) != v
    ensures ValueOf(tab, TokenOf(tab, v), absent) == v
  {
    TokenOfFound(tab, v);
    RowHasToken(tab, (TokenOf(tab, v), v));
    ValueOfFound(tab, TokenOf(tab, v), absent);
  }

  /** A tabled value whose rows all carry `k` is written as `k`. */
  lemma TokenOfOnly<V>(tab: Table<V>, v: V, k: string)
    requires OnlyToken(tab, v, k) && HasValue(tab, v)
    ensures TokenOf(tab, v) == k
  {
    TokenOfFound(tab, v);
  }

  /** A tabled value is not written as a token that `classify` gives to another value. */
  lemma TokenOfAvoids<V>(tab: Table<V>, classify: string -> V, v: V, k: string)
    requires NamedBy(tab, classify, None) && HasValue(tab, v) && classify(k) != v
    ensures TokenOf(tab, v) != k
  {
    TokenOfFound(tab, v);
  }

  /**
   * When the default is not tabled, the lookup yields the default exactly for
   * tokens that are not in the table.
   */
  lemma ValueOfAbsentIff<V>(tab: Table<V>, token: string, absent: V)
    requires Lacks(tab, absent)
    ensures ValueOf(tab, token, absent) == absent <==> !HasToken(tab, token)
  {
    if HasToken(tab, token) {
      ValueOfFound(tab, token, absent);
    } else {
      ValueOfMissing(tab, token, absent);
    }
  }

  /**
   * When the default is tabled only under `k`, the lookup yields the default
   * exactly for `k` (if `k`'s first row carries it) and for tokens not in the table.
   */
  lemma ValueOfAbsentOnly<V>(tab: Table<V>, token: string, absent: V, k: string)
    requires OnlyToken(tab, absent, k) && ValueOf(tab, k, absent) == absent
    ensures ValueOf(tab, token, absent) == absent <==> token == k || !HasToken(tab, token)
  {
    if HasToken(tab, token) {
      ValueOfFound(tab, token, absent);
    } else {
      ValueOfMissing(tab, token, absent);
    }
  }
}
