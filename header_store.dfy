/**
 * The header store behind OwinHandler.ReqHeaders and OwinHandler.RespHeaders:
 * a .NET Dictionary<string, string[]> built with StringComparer.OrdinalIgnoreCase.
 *
 * The dictionary is an object (the OWIN environment and the handler can hold
 * the same one), so it is a class.  Its contents are a map keyed by the
 * case-folded header name; each entry keeps the name as first inserted,
 * because the indexer of a .NET Dictionary overwrites the value of an
 * existing key and keeps that key.
 */
module HeaderStore {

  /** OrdinalIgnoreCase compares names after upper-casing them; ASCII only here. */
  function UpperAscii(c: char): (u: char)
    ensures 'a' <= c <= 'z' ==> u as int == c as int - 32
    ensures !('a' <= c <= 'z') ==> u == c
    ensures !('a' <= u <= 'z')
  {
    if 'a' <= c <= 'z' then (c as int - 32) as char else c
  }

  /** c and d are the same character, or the same ASCII letter in the two cases. */
  predicate CaseTwins(c: char, d: char) {
    || c == d
    || ('a' <= c <= 'z' && d as int == c as int - 32)
    || ('a' <= d <= 'z' && c as int == d as int - 32)
  }

  /**
   * The key under which a header name is stored: each character kept or
   * replaced by its upper-case twin, and nothing left that folding again
   * would change.
   */
  function FoldCase(s: string): (r: string)
    ensures |r| == |s|
    ensures forall i :: 0 <= i < |s| ==> CaseTwins(s[i], r[i]) && !('a' <= r[i] <= 'z')
    ensures forall i :: 0 <= i < |r| ==> UpperAscii(r[i]) == r[i]
  {
    seq(|s|, i requires 0 <= i < |s| => UpperAscii(s[i]))
  }

  /** Two names denote the same header. */
  predicate EqualsIgnoreCase(a: string, b: string) {
    FoldCase(a) == FoldCase(b)
  }

  /** Two characters fold alike exactly when they are case twins. */
  lemma UpperAsciiAlike(c: char, d: char)
    ensures UpperAscii(c) == UpperAscii(d) <==> CaseTwins(c, d)
  {
  }

  /**
   * Names are equal ignoring case exactly when they have the same length and
   * agree position by position up to the case of ASCII letters.
   */
  lemma {:induction false} EqualsIgnoreCaseIff(a: string, b: string)
    ensures EqualsIgnoreCase(a, b) <==>
              |a| == |b| && forall i :: 0 <= i < |a| ==> CaseTwins(a[i], b[i])
  {
    if EqualsIgnoreCase(a, b) {
      forall i | 0 <= i < |a| ensures CaseTwins(a[i], b[i]) {
        assert FoldCase(a)[i] == FoldCase(b)[i];
        UpperAsciiAlike(a[i], b[i]);
      }
    }
    if |a| == |b| && forall i :: 0 <= i < |a| ==> CaseTwins(a[i], b[i]) {
      forall i | 0 <= i < |a| ensures FoldCase(a)[i] == FoldCase(b)[i] {
        UpperAsciiAlike(a[i], b[i]);
      }
    }
  }

  const ConnectionKey: string := "CONNECTION"
  const ContentLengthKey: string := "CONTENT-LENGTH"
  const TransferEncodingKey: string := "TRANSFER-ENCODING"

  /** The three framing headers the handler looks up are stored under these keys. */
  lemma FramingKeys()
    ensures FoldCase("Connection") == ConnectionKey
    ensures FoldCase("Content-Length") == ContentLengthKey
    ensures FoldCase("Transfer-Encoding") == TransferEncodingKey
  {
  }

  /** The three framing keys are distinct. */
  lemma FramingKeysDistinct()
    ensures ConnectionKey != ContentLengthKey
    ensures ConnectionKey != TransferEncodingKey
    ensures ContentLengthKey != TransferEncodingKey
  {
    assert ConnectionKey[3] != ContentLengthKey[3];
    assert ConnectionKey[0] != TransferEncodingKey[0];
    assert ContentLengthKey[0] != TransferEncodingKey[0];
  }

  /** One dictionary entry: the name as stored and its value array. */
  datatype Header = Header(name: string, values: seq<string>)

  type HeaderMap = map<string, Header>

  /** Every entry sits under the fold of its own name. */
  ghost predicate KeyedByFold(h: HeaderMap) {
    forall k :: k in h ==> FoldCase(h[k].name) == k
  }

  /** No entry has an empty value array (true of the request store). */
  ghost predicate NoEmptyValues(h: HeaderMap) {
    forall k :: k in h ==> |h[k].values| > 0
  }

  /** The (name, values) pairs a full enumeration of the dictionary yields. */
  ghost function Entries(h: HeaderMap): set<(string, seq<string>)> {
    set k | k in h :: (h[k].name, h[k].values)
  }

  /** Distinct keys give distinct pairs, so enumerating yields each entry once. */
  lemma {:induction false} EntriesCardinality(h: HeaderMap)
    requires KeyedByFold(h)
    ensures |Entries(h)| == |h|
  {
    if h != map[] {
      var k :| k in h;
      var rest := h - {k};
      EntriesCardinality(rest);
      var p := (h[k].name, h[k].values);
      forall q | q in Entries(h) ensures q in Entries(rest) + {p} {
        var j :| j in h && q == (h[j].name, h[j].values);
        if j != k { assert j in rest && rest[j] == h[j]; }
      }
      assert Entries(h) == Entries(rest) + {p};
      assert p !in Entries(rest);
      assert |h| == |rest| + 1;
    }
  }

  /** Enumerating one more entry adds exactly one new pair. */
  lemma EntriesInsert(h: HeaderMap, k: string, e: Header)
    requires k !in h && KeyedByFold(h[k := e])
    ensures (e.name, e.values) !in Entries(h)
    ensures Entries(h[k := e]) == Entries(h) + {(e.name, e.values)}
  {
    var g := h[k := e];
    forall j | j in h ensures (h[j].name, h[j].values) != (e.name, e.values) {
      assert j in g && g[j] == h[j] && k in g && g[k] == e;
    }
    forall q | q in Entries(g) ensures q in Entries(h) + {(e.name, e.values)} {
      var j :| j in g && q == (g[j].name, g[j].values);
      if j != k { assert j in h && g[j] == h[j]; }
    }
    forall q | q in Entries(h) ensures q in Entries(g) {
      var j :| j in h && q == (h[j].name, h[j].values);
      assert j in g && g[j] == h[j];
    }
    assert k in g && (g[k].name, g[k].values) in Entries(g);
    assert Entries(g) == Entries(h) + {(e.name, e.values)};
  }

  /** A value for one name: appended to an existing entry, or a new singleton entry. */
  function Append(h: HeaderMap, name: string, value: string): (r: HeaderMap)
    ensures FoldCase(name) in r
    ensures FoldCase(name) in h ==>
              r[FoldCase(name)].name == h[FoldCase(name)].name &&
              r[FoldCase(name)].values == h[FoldCase(name)].values + [value]
    ensures FoldCase(name) !in h ==> r[FoldCase(name)] == Header(name, [value])
    ensures r.Keys == h.Keys + {FoldCase(name)}
    ensures forall k :: k in h && k != FoldCase(name) ==> r[k] == h[k]
    ensures KeyedByFold(h) ==> KeyedByFold(r)
    ensures NoEmptyValues(h) ==> NoEmptyValues(r)
  {
    var key := FoldCase(name);
    if key in h then h[key := Header(h[key].name, h[key].values + [value])]
    else h[key := Header(name, [value])]
  }

  /** Names differing only in case land in one entry, values in arrival order. */
  lemma AppendIgnoresCase(h: HeaderMap, a: string, b: string, v1: string, v2: string)
    requires EqualsIgnoreCase(a, b)
    requires FoldCase(a) !in h
    ensures var r := Append(Append(h, a, v1), b, v2);
      r.Keys == h.Keys + {FoldCase(a)} && r[FoldCase(a)] == Header(a, [v1, v2])
  {
  }

  class HeaderDictionary {
    var entries: HeaderMap

    ghost predicate Valid()
      reads this
    {
      KeyedByFold(entries)
    }

    constructor ()
      ensures Valid() && entries == map[]
    {
      entries := map[];
    }

    /** Dictionary.Clear */
    method Clear()
      modifies this
      ensures Valid() && entries == map[]
    {
      entries := map[];
    }

    /** Dictionary.TryGetValue: the value array stored under the name, if any. */
    method TryGetValue(name: string) returns (found: bool, values: seq<string>)
      ensures found <==> FoldCase(name) in entries
      ensures found ==> values == entries[FoldCase(name)].values
    {
      var key := FoldCase(name);
      found := key in entries;
      values := if found then entries[key].values else [];
    }

    /** Dictionary.Remove: nothing happens when the name is absent. */
    method Remove(name: string)
      requires Valid()
      modifies this
      ensures Valid()
      ensures entries == old(entries) - {FoldCase(name)}
    {
      entries := entries - {FoldCase(name)};
    }

    /** The indexer's setter: an existing entry keeps its stored name. */
    method Set(name: string, values: seq<string>)
      requires Valid()
      modifies this
      ensures Valid()
      ensures FoldCase(name) in old(entries) ==>
                entries == old(entries)[FoldCase(name) := Header(old(entries)[FoldCase(name)].name, values)]
      ensures FoldCase(name) !in old(entries) ==>
                entries == old(entries)[FoldCase(name) := Header(name, values)]
    {
      var key := FoldCase(name);
      var stored := if key in entries then entries[key].name else name;
      entries := entries[key := Header(stored, values)];
    }

    /** Dictionary.Add, whose callers must not pass a name already present. */
    method Add(name: string, values: seq<string>)
      requires Valid()
      requires FoldCase(name) !in entries
      modifies this
      ensures Valid()
      ensures entries == old(entries)[FoldCase(name) := Header(name, values)]
    {
      entries := entries[FoldCase(name) := Header(name, values)];
    }
  }
}
