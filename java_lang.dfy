/** The small part of the Java platform the filter builder relies on: objects as the
    absence policy sees them, `String.trim`, `String.toLowerCase`, and the two mutable
    collaborators a filter renders into, a `StringBuilder` and a `Map<String, Object>`. */
module JavaLang {
  import opened Wrappers

  /** A Java object, reduced to what decides whether it counts as supplied. */
  datatype Value =
    | Null                              // the null reference
    | Str(chars: string)                // any CharSequence
    | Coll(elems: seq<Value>)           // any Collection (List, Set, ...)
    | MapV(entries: seq<(Value, Value)>) // any Map, by its entries
    | Bool(b: bool)
    | Int(n: int)
    | Other(id: nat)                    // any other object (Double, LocalDate, ...), opaque

  /** One `Map.put(name, value)` performed while rendering a filter. */
  type Binding = (string, Value)

  /** Every character is a space or a control character, i.e. `s.trim()` is empty. */
  predicate Blank(s: string) {
    forall i | 0 <= i < |s| :: s[i] <= ' '
  }

  /** `s` with its leading characters up to U+0020 removed. */
  function TrimStart(s: string): (t: string)
    ensures |t| <= |s| && t == s[|s| - |t|..]
    ensures t != [] ==> t[0] > ' '
    ensures Blank(s[..|s| - |t|])
  {
    if s != [] && s[0] <= ' ' then
      var t := TrimStart(s[1..]);
      assert forall i | 1 <= i < |s| - |t| :: s[i] == s[1..][..|s| - 1 - |t|][i - 1];
      t
    else s
  }

  /** `s` with its trailing characters up to U+0020 removed. */
  function TrimEnd(s: string): (t: string)
    ensures |t| <= |s| && t == s[..|t|]
    ensures t != [] ==> t[|t| - 1] > ' '
    ensures Blank(s[|t|..])
  {
    if s != [] && s[|s| - 1] <= ' ' then
      var t := TrimEnd(s[..|s| - 1]);
      assert forall i | |t| <= i < |s| - 1 :: s[i] == s[..|s| - 1][|t|..][i - |t|];
      t
    else s
  }

  /** Java's `String.trim()`: both ends stripped of characters up to U+0020. The result
      is the infix of `s` left once blank runs are cut off at each end. */
  function Trim(s: string): (t: string)
    ensures |t| <= |s|
    ensures t != [] ==> t[0] > ' ' && t[|t| - 1] > ' '
    ensures BlankCut(s, t)
  {
    var u := TrimStart(s);
    BlankEnds(s, u, TrimEnd(u));
    TrimEnd(u)
  }

  /** `t` is an infix of `s` whose surrounding parts are blank. */
  predicate BlankCut(s: string, t: string) {
    exists i | 0 <= i <= |s| - |t| :: t == s[i..i + |t|] && Blank(s[..i]) && Blank(s[i + |t|..])
  }

  /** Cutting a blank prefix and then a blank suffix leaves an infix with blank ends. */
  lemma BlankEnds(s: string, u: string, t: string)
    requires |u| <= |s| && u == s[|s| - |u|..] && Blank(s[..|s| - |u|])
    requires |t| <= |u| && t == u[..|t|] && Blank(u[|t|..])
    ensures BlankCut(s, t)
  {
    var i := |s| - |u|;
    assert s[i + |t|..] == u[|t|..];
    assert t == s[i..i + |t|];
  }

  /** `s.trim().isEmpty()` holds exactly for blank strings. */
  lemma TrimEmptyIffBlank(s: string)
    ensures Trim(s) == [] <==> Blank(s)
  {
  }

  /** Lower-cases one character; only ASCII letters change. */
  function LowerChar(c: char): char {
    if 'A' <= c <= 'Z' then (c as int + 32) as char else c
  }

  /** `String.toLowerCase()`, restricted to the ASCII letters. */
  function ToLowerCase(s: string): (t: string)
    ensures |t| == |s|
    ensures forall i | 0 <= i < |t| :: !('A' <= t[i] <= 'Z')
    ensures forall i | 0 <= i < |s| :: !('A' <= s[i] <= 'Z') ==> t[i] == s[i]
    ensures forall i | 0 <= i < |s| :: 'A' <= s[i] <= 'Z' ==> t[i] == (s[i] as int + 32) as char
  {
    if s == [] then [] else [LowerChar(s[0])] + ToLowerCase(s[1..])
  }

  /** Lower-casing an already lower-cased string changes nothing. */
  lemma ToLowerCaseIdempotent(s: string)
    ensures ToLowerCase(ToLowerCase(s)) == ToLowerCase(s)
  {
    var t := ToLowerCase(s);
    assert forall i | 0 <= i < |t| :: ToLowerCase(t)[i] == t[i];
  }

  /** The map after performing the puts of `writes`, in order, on `m`. */
  function Store(m: map<string, Value>, writes: seq<Binding>): map<string, Value>
    decreases writes
  {
    if writes == [] then m else Store(m[writes[0].0 := writes[0].1], writes[1..])
  }

  /** The names `writes` puts. */
  function Names(writes: seq<Binding>): set<string> {
    set i | 0 <= i < |writes| :: writes[i].0
  }

  /** The value of the last put of `name` in `writes`, if there is one. */
  function LastWrite(writes: seq<Binding>, name: string): Option<Value> {
    if writes == [] then None
    else if writes[|writes| - 1].0 == name then Some(writes[|writes| - 1].1)
    else LastWrite(writes[..|writes| - 1], name)
  }

  /** Two runs of puts, one after the other, are the run of their concatenation. */
  lemma {:induction false} StoreAppend(m: map<string, Value>, w1: seq<Binding>, w2: seq<Binding>)
    ensures Store(m, w1 + w2) == Store(Store(m, w1), w2)
    decreases w1
  {
    if w1 != [] {
      assert (w1 + w2)[0] == w1[0];
      assert (w1 + w2)[1..] == w1[1..] + w2;
      StoreAppend(m[w1[0].0 := w1[0].1], w1[1..], w2);
    } else {
      assert w1 + w2 == w2;
    }
  }

  /** After the puts, a name is bound iff it was bound before or was put; its value is
      that of its last put, or the old one when it was not put: keys are never removed
      and a later put of a name overwrites an earlier one. */
  lemma {:induction false} StoreLookup(m: map<string, Value>, writes: seq<Binding>, name: string)
    ensures name in Store(m, writes) <==> name in m || LastWrite(writes, name).Some?
    ensures name in Store(m, writes) ==>
      Store(m, writes)[name] == if LastWrite(writes, name).Some? then LastWrite(writes, name).value else m[name]
    decreases writes
  {
    if writes != [] {
      var n := |writes| - 1;
      var init := writes[..n];
      assert writes == init + [writes[n]];
      StoreAppend(m, init, [writes[n]]);
      StoreLookup(m, init, name);
    }
  }

  /** The keys after the puts are the old keys and the names put. */
  lemma {:induction false} StoreKeys(m: map<string, Value>, writes: seq<Binding>)
    ensures Store(m, writes).Keys == m.Keys + Names(writes)
    decreases writes
  {
    if writes != [] {
      StoreKeys(m[writes[0].0 := writes[0].1], writes[1..]);
      assert Names(writes) == {writes[0].0} + Names(writes[1..]) by {
        forall x | x in Names(writes) ensures x in {writes[0].0} + Names(writes[1..]) {
          var i :| 0 <= i < |writes| && writes[i].0 == x;
          if i > 0 { assert writes[1..][i - 1].0 == x; }
        }
      }
    }
  }

  /** Putting into a filled map is putting into an empty one and overriding the old map
      with the result: what a rendering binds does not depend on what was there before. */
  lemma {:induction false} StoreOverEmpty(m: map<string, Value>, writes: seq<Binding>)
    ensures Store(m, writes) == m + Store(map[], writes)
    decreases writes
  {
    if writes != [] {
      var w := writes[0];
      StoreOverEmpty(m[w.0 := w.1], writes[1..]);
      StoreOverEmpty(map[w.0 := w.1], writes[1..]);
      assert m[w.0 := w.1] == m + map[w.0 := w.1];
      assert Store(map[], writes) == Store(map[w.0 := w.1], writes[1..]);
      assert (m + map[w.0 := w.1]) + Store(map[], writes[1..])
          == m + (map[w.0 := w.1] + Store(map[], writes[1..]));
    }
  }

  /** A `java.lang.StringBuilder` as a rendering sees it. */
  class StringBuilder {
    var text: string

    constructor ()
      ensures text == ""
    {
      text := "";
    }

    method Append(s: string)
      modifies this
      ensures text == old(text) + s
    {
      text := text + s;
    }
  }

  /** A `java.util.Map<String, Object>` (a `HashMap`) as a rendering sees it. */
  class ParameterMap {
    var entries: map<string, Value>

    constructor ()
      ensures entries == map[]
    {
      entries := map[];
    }

    method Put(name: string, value: Value)
      modifies this
      ensures entries == Store(old(entries), [(name, value)])
    {
      entries := entries[name := value];
    }
  }
}
