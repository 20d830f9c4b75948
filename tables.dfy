/** The two name-keyed result tables (`table_scalar`, `table_vector`) as a
    value, and the operations on them as functions: load, download-size,
    size-checked download and clearing by prefix. */
module ResultTables {
  import opened Common

  datatype Tables = Tables(scalars: map<string, real>, vectors: map<string, seq<real>>) {
    /** The key is taken in either table. */
    predicate Has(key: string) { key in scalars || key in vectors }
  }

  const Empty: Tables := Tables(map[], map[])

  /** A parsed `<save_variables>` element, as both `create_track` and
      `optimal_laptime` read it: the key prefix and the variable names in
      document order. An absent element saves nothing. */
  datatype SaveVariables = SaveVariables(prefix: string, variables: seq<string>)

  const NoSaveVariables: SaveVariables := SaveVariables("", [])

  /** The collision check run before every save: the scalar table is
      consulted first, then the vector table. */
  function CheckFree(t: Tables, key: string): (r: Option<Error>)
    ensures r.None? <==> !t.Has(key)
    ensures key in t.scalars ==> r == Some(ExistsInScalarTable(key))
    ensures key !in t.scalars && key in t.vectors ==> r == Some(ExistsInVectorTable(key))
  {
    if key in t.scalars then Some(ExistsInScalarTable(key))
    else if key in t.vectors then Some(ExistsInVectorTable(key))
    else None
  }

  /** The tables after a sequence of saves, and the error that stopped them
      if one did; what was saved before the error stays saved. */
  datatype Saved = Saved(tables: Tables, failure: Option<Error>)

  /** `load_vector_table_variable` with `data` the `n` values the caller passes. */
  function LoadVector(t: Tables, name: string, data: seq<real>): (r: Result<Tables>)
    ensures r.Err? <==> name in t.vectors
    ensures r.Err? ==> r.error == ExistsInVectorTable(name)
    ensures r.Ok? ==> r.value.scalars == t.scalars
    ensures r.Ok? ==> name in r.value.vectors && r.value.vectors[name] == data
    ensures r.Ok? ==> forall k :: k != name ==> (k in r.value.vectors <==> k in t.vectors)
    ensures r.Ok? ==> forall k :: k in t.vectors ==> r.value.vectors[k] == t.vectors[k]
  {
    if name in t.vectors then Err(ExistsInVectorTable(name))
    else Ok(t.(vectors := t.vectors[name := data]))
  }

  /** `download_vector_table_variable_size`. */
  function DownloadSize(t: Tables, name: string): (r: Result<nat>)
    ensures r.Ok? <==> name in t.vectors
    ensures r.Ok? ==> r.value == |t.vectors[name]|
    ensures r.Err? ==> r.error == NotInVectorTable(name)
  {
    if name !in t.vectors then Err(NotInVectorTable(name)) else Ok(|t.vectors[name]|)
  }

  /** `download_vector_table_variable`: the stored vector, provided the
      caller's buffer size `n` equals its length. */
  function Download(t: Tables, n: int, name: string): (r: Result<seq<real>>)
    ensures r.Ok? <==> name in t.vectors && |t.vectors[name]| == n
    ensures r.Ok? ==> r.value == t.vectors[name] && |r.value| == n
    ensures name !in t.vectors ==> r == Err(NotInVectorTable(name))
    ensures name in t.vectors && |t.vectors[name]| != n ==> r == Err(IncorrectInputSize(name, n, |t.vectors[name]|))
  {
    if name !in t.vectors then Err(NotInVectorTable(name))
    else if |t.vectors[name]| != n then Err(IncorrectInputSize(name, n, |t.vectors[name]|))
    else Ok(t.vectors[name])
  }

  /** Loading and then downloading a variable gives back what was loaded,
      and only a buffer of exactly that size is accepted. */
  lemma LoadThenDownload(t: Tables, name: string, data: seq<real>, n: int)
    requires LoadVector(t, name, data).Ok?
    ensures DownloadSize(LoadVector(t, name, data).value, name) == Ok(|data|)
    ensures n == |data| ==> Download(LoadVector(t, name, data).value, n, name) == Ok(data)
    ensures n != |data| ==> Download(LoadVector(t, name, data).value, n, name) == Err(IncorrectInputSize(name, n, |data|))
  {
  }

  /** The entries of `m` whose key does not start with `prefix`. */
  function WithoutPrefix<V>(m: map<string, V>, prefix: string): (r: map<string, V>)
    ensures forall k :: k in r ==> k in m && r[k] == m[k]
    ensures forall k :: k in m && !(prefix <= k) ==> k in r
    ensures forall k :: k in r ==> !(prefix <= k)
  {
    map k | k in m && !(prefix <= k) :: m[k]
  }

  /** `clear_tables_by_prefix` on both tables. */
  function ClearByPrefix(t: Tables, prefix: string): (r: Tables)
    ensures forall k :: r.Has(k) ==> t.Has(k) && !(prefix <= k)
    ensures forall k :: t.Has(k) && !(prefix <= k) ==> r.Has(k)
  {
    Tables(WithoutPrefix(t.scalars, prefix), WithoutPrefix(t.vectors, prefix))
  }

  /** After clearing by a prefix no key of either table starts with it, and
      every other entry keeps its value. */
  lemma ClearByPrefixSpec(t: Tables, prefix: string, key: string)
    ensures ClearByPrefix(t, prefix).Has(key) <==> t.Has(key) && !(prefix <= key)
    ensures key in ClearByPrefix(t, prefix).scalars ==> ClearByPrefix(t, prefix).scalars[key] == t.scalars[key]
    ensures key in ClearByPrefix(t, prefix).vectors ==> ClearByPrefix(t, prefix).vectors[key] == t.vectors[key]
  {
  }

  /** Clearing twice by the same prefix clears nothing more. */
  lemma ClearByPrefixIdempotent(t: Tables, prefix: string)
    ensures ClearByPrefix(ClearByPrefix(t, prefix), prefix) == ClearByPrefix(t, prefix)
  {
    var once := ClearByPrefix(t, prefix);
    var twice := ClearByPrefix(once, prefix);
    assert twice.scalars == once.scalars;
    assert twice.vectors == once.vectors;
  }

  /** Every key starts with the empty prefix, so clearing by it is
      `clear_tables`. */
  lemma ClearByEmptyPrefix(t: Tables)
    ensures ClearByPrefix(t, "") == Empty
  {
    var c := ClearByPrefix(t, "");
    assert c.scalars == map[];
    assert c.vectors == map[];
  }

  /** Clearing a shorter prefix also clears every key a longer one would. */
  lemma ClearByPrefixNested(t: Tables, shorter: string, longer: string)
    requires shorter <= longer
    ensures ClearByPrefix(ClearByPrefix(t, longer), shorter) == ClearByPrefix(t, shorter)
  {
    var lhs := ClearByPrefix(ClearByPrefix(t, longer), shorter);
    var rhs := ClearByPrefix(t, shorter);
    forall k | k in t.scalars && longer <= k ensures shorter <= k {
      PrefixTransitive(shorter, longer, k);
    }
    forall k | k in t.vectors && longer <= k ensures shorter <= k {
      PrefixTransitive(shorter, longer, k);
    }
    assert lhs.scalars == rhs.scalars;
    assert lhs.vectors == rhs.vectors;
  }

  lemma PrefixTransitive(a: string, b: string, c: string)
    requires a <= b && b <= c
    ensures a <= c
  {
    assert c[..|a|] == b[..|a|];
  }

  /** `pattern` occurs in `text` at position `i`. */
  predicate OccursAt(text: string, pattern: string, i: nat)
  {
    i + |pattern| <= |text| && text[i..i + |pattern|] == pattern
  }

  /** A key starts with the prefix exactly when the prefix occurs at 0. */
  lemma OccursAtStart(text: string, pattern: string)
    ensures OccursAt(text, pattern, 0) <==> pattern <= text
  {
  }

  /** `std::string::find`: the first position at which `pattern` occurs in
      `text`, or none. */
  method Find(text: string, pattern: string) returns (r: Option<nat>)
    ensures r.Some? ==> OccursAt(text, pattern, r.value)
    ensures r.Some? ==> forall j :: 0 <= j < r.value ==> !OccursAt(text, pattern, j)
    ensures r.None? ==> forall j: nat :: !OccursAt(text, pattern, j)
  {
    if |pattern| > |text| {
      return None;
    }
    var i := 0;
    while i + |pattern| <= |text|
      invariant 0 <= i <= |text| - |pattern| + 1
      invariant forall j :: 0 <= j < i ==> !OccursAt(text, pattern, j)
    {
      if text[i..i + |pattern|] == pattern {
        return Some(i);
      }
      i := i + 1;
    }
    return None;
  }
}
