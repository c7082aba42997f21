/**
 * Stream names: the dictionary of streams a plugin returns, resolving a
 * synonym such as "best" to the real name it stands for
 * (`resolve_stream_name`), listing the valid names with their synonyms
 * (`format_valid_streams`), and the fail-over candidates of a name (the
 * "_alt" streams `handle_stream` tries after it).
 */
module Names {
  import opened Io
  import opened Options

  /** A stream object: its identity, and the short name of its type ("hls", "rtmp", ...). */
  datatype Stream = Stream(id: nat, shortname: string)

  /** One binding of the streams dictionary; several names may be bound to the same stream. */
  datatype Entry = Entry(name: string, stream: Stream)

  /** The streams dictionary, in insertion order. */
  type Streams = seq<Entry>

  function Keys(d: Streams): (ks: seq<string>)
    ensures |ks| == |d|
    ensures forall i :: 0 <= i < |d| ==> ks[i] == d[i].name
  {
    if d == [] then [] else [d[0].name] + Keys(d[1..])
  }

  /** `streams.get(name)`. */
  function Get(d: Streams, name: string): (r: Option<Stream>)
    ensures r.None? <==> name !in Keys(d)
    ensures r.Some? ==> exists i :: 0 <= i < |d| && d[i] == Entry(name, r.value)
  {
    if d == [] then None
    else if d[0].name == name then Some(d[0].stream)
    else Get(d[1..], name)
  }

  // ---------------------------------------------------------------------------
  // `resolve_stream_name`.

  /** The first binding from index `from` on of a non-synonym name to the stream with identity `id`. */
  function FirstAlias(d: Streams, id: nat, synonyms: set<string>, from: nat): (k: nat)
    requires from <= |d|
    decreases |d| - from
    ensures from <= k <= |d|
    ensures forall j :: from <= j < k ==> d[j].stream.id != id || d[j].name in synonyms
    ensures k < |d| ==> d[k].stream.id == id && d[k].name !in synonyms
  {
    if from == |d| then from
    else if d[from].stream.id == id && d[from].name !in synonyms then from
    else FirstAlias(d, id, synonyms, from + 1)
  }

  /**
   * `resolve_stream_name(streams, name)`: a synonym is replaced by the
   * first non-synonym name, in dictionary order, bound to the same stream.
   * Looking the synonym up raises a KeyError when it is not bound, which
   * the scan reaches only if the dictionary has at least one entry.
   */
  function ResolveStreamName(d: Streams, name: string, synonyms: set<string>): (r: Result<string, ExitReason>)
    // a name that is not a synonym is returned as it is
    ensures name !in synonyms ==> r == Ok(name)
    // the only failure is the KeyError of an unbound synonym
    ensures r.Err? <==> name in synonyms && d != [] && name !in Keys(d)
    ensures r.Err? ==> r.error == UnboundName
    // a bound synonym resolves to the first non-synonym name of the same stream ...
    ensures name in synonyms && r.Ok? && r.value != name ==>
              exists k :: 0 <= k < |d| && d[k].name == r.value && d[k].name !in synonyms
                          && d[k].stream.id == Get(d, name).value.id
                          && forall j :: 0 <= j < k ==> d[j].stream.id != Get(d, name).value.id || d[j].name in synonyms
    // ... and to itself when there is none
    ensures name in synonyms && r == Ok(name) && name in Keys(d) ==>
              forall j :: 0 <= j < |d| ==> d[j].stream.id != Get(d, name).value.id || d[j].name in synonyms
  {
    if name !in synonyms || d == [] then Ok(name)
    else match Get(d, name)
      case None => Err(UnboundName)
      case Some(s) =>
        var k := FirstAlias(d, s.id, synonyms, 0);
        if k < |d| then Ok(d[k].name) else Ok(name)
  }

  /** A name bound in the dictionary resolves to a name bound in it. */
  lemma ResolveBound(d: Streams, name: string, synonyms: set<string>)
    requires name in Keys(d)
    ensures ResolveStreamName(d, name, synonyms).Ok? && ResolveStreamName(d, name, synonyms).value in Keys(d)
  {
    var r := ResolveStreamName(d, name, synonyms);
    if r.value != name {
      var k :| 0 <= k < |d| && d[k].name == r.value;
      assert Keys(d)[k] == r.value;
    }
  }

  // ---------------------------------------------------------------------------
  // Python's string order, and `sorted`.

  /** `a <= b` on Python strings: lexicographic by code point, a prefix first. */
  predicate StrLe(a: string, b: string)
    decreases |a|
  {
    a == [] || (b != [] && (a[0] < b[0] || (a[0] == b[0] && StrLe(a[1..], b[1..]))))
  }

  lemma {:induction false} StrLeTotal(a: string, b: string)
    ensures StrLe(a, b) || StrLe(b, a)
    decreases |a|
  {
    if a != [] && b != [] && a[0] == b[0] {
      StrLeTotal(a[1..], b[1..]);
    }
  }

  lemma {:induction false} StrLeAntisymmetric(a: string, b: string)
    requires StrLe(a, b) && StrLe(b, a)
    ensures a == b
    decreases |a|
  {
    if a != [] {
      StrLeAntisymmetric(a[1..], b[1..]);
      assert a == [a[0]] + a[1..] && b == [b[0]] + b[1..];
    }
  }

  predicate SortedByName(d: Streams)
  {
    forall i :: 0 < i < |d| ==> StrLe(d[i - 1].name, d[i].name)
  }

  /** Insert an entry into a list sorted by name, after the entries whose names do not exceed it. */
  function Insert(e: Entry, s: Streams): Streams
  {
    if s == [] || (StrLe(e.name, s[0].name) && e.name != s[0].name) then [e] + s
    else [s[0]] + Insert(e, s[1..])
  }

  /** `sorted(streams.items())`: the entries ordered by name (insertion sort, stable). */
  function SortByName(d: Streams): Streams
  {
    if d == [] then [] else Insert(d[0], SortByName(d[1..]))
  }

  /** Inserting keeps every entry and adds one. */
  lemma {:induction false} InsertKeeps(e: Entry, s: Streams)
    ensures multiset(Insert(e, s)) == multiset(s) + multiset{e}
  {
    if !(s == [] || (StrLe(e.name, s[0].name) && e.name != s[0].name)) {
      InsertKeeps(e, s[1..]);
      assert s == [s[0]] + s[1..];
    }
  }

  /** The first entry after inserting is the inserted one or the old first one. */
  lemma InsertHead(e: Entry, s: Streams)
    ensures Insert(e, s) != [] && (Insert(e, s)[0] == e || (s != [] && Insert(e, s)[0] == s[0]))
  {
  }

  /** The tail of a sorted list is sorted. */
  lemma SortedTail(s: Streams)
    requires SortedByName(s) && s != []
    ensures SortedByName(s[1..])
  {
    forall i | 0 < i < |s[1..]| ensures StrLe(s[1..][i - 1].name, s[1..][i].name) {
      assert s[1..][i - 1] == s[i] && s[1..][i] == s[i + 1];
    }
  }

  /** Inserting into a sorted list keeps it sorted. */
  lemma {:induction false} InsertSorted(e: Entry, s: Streams)
    requires SortedByName(s)
    ensures SortedByName(Insert(e, s))
  {
    if !(s == [] || (StrLe(e.name, s[0].name) && e.name != s[0].name)) {
      var rest := Insert(e, s[1..]);
      SortedTail(s);
      InsertSorted(e, s[1..]);
      InsertHead(e, s[1..]);
      StrLeTotal(e.name, s[0].name);
      assert StrLe(s[0].name, rest[0].name) by {
        if rest[0] != e {
          assert rest[0] == s[1];
        }
      }
      var r := [s[0]] + rest;
      forall i | 0 < i < |r| ensures StrLe(r[i - 1].name, r[i].name) {
        if i > 1 {
          assert r[i - 1] == rest[i - 2] && r[i] == rest[i - 1];
        }
      }
    }
  }

  /** Sorting orders the entries by name and keeps every one of them. */
  lemma {:induction false} SortByNameCorrect(d: Streams)
    ensures SortedByName(SortByName(d))
    ensures multiset(SortByName(d)) == multiset(d)
  {
    if d != [] {
      SortByNameCorrect(d[1..]);
      InsertSorted(d[0], SortByName(d[1..]));
      InsertKeeps(d[0], SortByName(d[1..]));
      assert d == [d[0]] + d[1..];
    }
  }

  // ---------------------------------------------------------------------------
  // `format_valid_streams`.

  /** `delimiter.join(parts)`. */
  function Join(parts: seq<string>, delimiter: string): string
  {
    if parts == [] then "" else if |parts| == 1 then parts[0] else parts[0] + delimiter + Join(parts[1..], delimiter)
  }

  /** The names other than `name` bound to the stream with identity `id`, in dictionary order. */
  function OtherNames(d: Streams, id: nat, name: string): (ns: seq<string>)
    ensures forall n :: n in ns <==> n != name && exists i :: 0 <= i < |d| && d[i].name == n && d[i].stream.id == id
  {
    if d == [] then []
    else (if d[0].stream.id == id && d[0].name != name then [d[0].name] else []) + OtherNames(d[1..], id, name)
  }

  /** The listing of one valid name: the name, followed by its synonyms in parentheses if it has any. */
  function Label(d: Streams, e: Entry): string
  {
    var others := OtherNames(d, e.stream.id, e.name);
    if |others| > 0 then e.name + " (" + Join(others, ", ") + ")" else e.name
  }

  /** The entries `format_valid_streams` lists, in order: the non-synonyms of `sorted`. */
  function Listed(s: Streams, synonyms: set<string>): (r: Streams)
    ensures forall e :: e in r <==> e in s && e.name !in synonyms
  {
    if s == [] then []
    else (if s[0].name in synonyms then [] else [s[0]]) + Listed(s[1..], synonyms)
  }

  /** The labels of those entries. */
  function Labels(d: Streams, entries: Streams): (r: seq<string>)
    ensures |r| == |entries|
    ensures forall i :: 0 <= i < |entries| ==> r[i] == Label(d, entries[i])
  {
    if entries == [] then [] else [Label(d, entries[0])] + Labels(d, entries[1..])
  }

  /** One step of the listing: the head entry is listed unless it is a synonym. */
  lemma ListedStep(items: Streams, i: nat, synonyms: set<string>)
    requires i < |items|
    ensures Listed(items[i..], synonyms)
            == (if items[i].name in synonyms then [] else [items[i]]) + Listed(items[i + 1..], synonyms)
  {
    assert items[i..][1..] == items[i + 1..];
  }

  lemma LabelsCons(d: Streams, e: Entry, rest: Streams)
    ensures Labels(d, [e] + rest) == [Label(d, e)] + Labels(d, rest)
  {
    assert ([e] + rest)[1..] == rest;
  }

  /** The text `format_valid_streams` gives: the labels of the listed entries in name order, joined by ", ". */
  function Listing(d: Streams, synonyms: set<string>): string
  {
    Join(Labels(d, Listed(SortByName(d), synonyms)), ", ")
  }

  /** `format_valid_streams(streams)`. */
  method FormatValidStreams(d: Streams, synonyms: set<string>) returns (s: string)
    ensures s == Listing(d, synonyms)
  {
    var delimiter := ", ";
    var valid: seq<string> := [];
    var items := SortByName(d);
    var i := 0;
    assert items[0..] == items;
    while i < |items|
      invariant i <= |items|
      invariant valid + Labels(d, Listed(items[i..], synonyms)) == Labels(d, Listed(items, synonyms))
    {
      var e := items[i];
      ListedStep(items, i, synonyms);
      if e.name in synonyms {
        assert [] + Listed(items[i + 1..], synonyms) == Listed(items[i + 1..], synonyms);
        i := i + 1;
        continue;
      }
      var others := OtherNames(d, e.stream.id, e.name);
      var name := e.name;
      if |others| > 0 {
        var joined := Join(others, delimiter);
        name := name + " (" + joined + ")";
      }
      LabelsCons(d, e, Listed(items[i + 1..], synonyms));
      Assoc(valid, [name], Labels(d, Listed(items[i + 1..], synonyms)));
      valid := valid + [name];
      i := i + 1;
    }
    assert Listed(items[i..], synonyms) == [];
    AppendEmpty(valid);
    s := Join(valid, delimiter);
  }

  /** Each label starts with its name, and is the bare name exactly when no other name is bound to its stream. */
  lemma LabelShape(d: Streams, e: Entry)
    ensures |Label(d, e)| >= |e.name| && Label(d, e)[..|e.name|] == e.name
    ensures Label(d, e) == e.name <==> OtherNames(d, e.stream.id, e.name) == []
  {
    var others := OtherNames(d, e.stream.id, e.name);
    if |others| > 0 {
      assert |Label(d, e)| > |e.name|;
    }
  }

  /**
   * The listing shows the non-synonym entries of the dictionary, each as
   * often as the dictionary has it, in sorted order of their names.
   */
  lemma ListingCorrect(d: Streams, synonyms: set<string>)
    ensures var listed := Listed(SortByName(d), synonyms);
            && SortedByName(listed)
            && (forall e :: e in listed <==> e in d && e.name !in synonyms)
            && multiset(listed) == multiset(Listed(d, synonyms))
  {
    var sorted := SortByName(d);
    SortByNameCorrect(d);
    ListedSorted(sorted, synonyms);
    assert forall e :: e in sorted <==> e in d by {
      forall e ensures e in sorted <==> e in d {
        assert e in sorted <==> e in multiset(sorted);
        assert e in d <==> e in multiset(d);
      }
    }
    ListedPermutation(sorted, d, synonyms);
  }

  lemma {:induction false} ListedSorted(s: Streams, synonyms: set<string>)
    requires SortedByName(s)
    ensures SortedByName(Listed(s, synonyms))
  {
    if s != [] {
      assert SortedByName(s[1..]) by {
        forall i | 0 < i < |s[1..]| ensures StrLe(s[1..][i - 1].name, s[1..][i].name) {
          assert s[1..][i - 1] == s[i] && s[1..][i] == s[i + 1];
        }
      }
      ListedSorted(s[1..], synonyms);
      var rest := Listed(s[1..], synonyms);
      if s[0].name !in synonyms && rest != [] {
        ListedHead(s[1..], synonyms);
        StrLeTransitiveFromSorted(s, rest[0]);
        var r := [s[0]] + rest;
        forall i | 0 < i < |r| ensures StrLe(r[i - 1].name, r[i].name) {
          if i > 1 {
            assert r[i - 1] == rest[i - 2] && r[i] == rest[i - 1];
          }
        }
      }
    }
  }

  lemma {:induction false} ListedHead(s: Streams, synonyms: set<string>)
    requires Listed(s, synonyms) != []
    ensures Listed(s, synonyms)[0] in s
  {
  }

  /** In a list sorted by name, the first name does not exceed any later one. */
  lemma StrLeTransitiveFromSorted(s: Streams, e: Entry)
    requires SortedByName(s) && s != [] && e in s[1..]
    ensures StrLe(s[0].name, e.name)
  {
    var k :| 1 <= k < |s| && s[k] == e;
    FirstBelowAt(s, k);
  }

  lemma {:induction false} FirstBelowAt(s: Streams, k: nat)
    requires SortedByName(s) && k < |s|
    ensures StrLe(s[0].name, s[k].name)
    decreases k
  {
    if k == 0 {
      StrLeReflexive(s[0].name);
    } else {
      FirstBelowAt(s, k - 1);
      StrLeTransitive(s[0].name, s[k - 1].name, s[k].name);
    }
  }

  lemma {:induction false} StrLeReflexive(a: string)
    ensures StrLe(a, a)
    decreases |a|
  {
    if a != [] {
      StrLeReflexive(a[1..]);
    }
  }

  lemma {:induction false} StrLeTransitive(a: string, b: string, c: string)
    requires StrLe(a, b) && StrLe(b, c)
    ensures StrLe(a, c)
    decreases |a|
  {
    if a != [] && b != [] && c != [] && a[0] == b[0] && b[0] == c[0] {
      StrLeTransitive(a[1..], b[1..], c[1..]);
    }
  }

  /** The listing keeps each non-synonym entry as often as the list has it, and no synonym. */
  lemma {:induction false} ListedCounts(s: Streams, synonyms: set<string>, e: Entry)
    ensures multiset(Listed(s, synonyms))[e] == if e.name in synonyms then 0 else multiset(s)[e]
  {
    if s != [] {
      ListedCounts(s[1..], synonyms, e);
      assert s == [s[0]] + s[1..];
    }
  }

  /** Listing a permutation of the entries lists a permutation of the same entries. */
  lemma ListedPermutation(s: Streams, d: Streams, synonyms: set<string>)
    requires multiset(s) == multiset(d)
    ensures multiset(Listed(s, synonyms)) == multiset(Listed(d, synonyms))
  {
    forall e ensures multiset(Listed(s, synonyms))[e] == multiset(Listed(d, synonyms))[e] {
      ListedCounts(s, synonyms, e);
      ListedCounts(d, synonyms, e);
    }
  }

  /** Two lists with the same entries have the same keys. */
  lemma SameKeys(s: Streams, d: Streams, k: string)
    requires multiset(s) == multiset(d)
    ensures k in Keys(s) <==> k in Keys(d)
  {
    if k in Keys(s) {
      var i :| 0 <= i < |s| && Keys(s)[i] == k;
      assert s[i] in multiset(d);
      var j :| 0 <= j < |d| && d[j] == s[i];
      assert Keys(d)[j] == k;
    }
    if k in Keys(d) {
      var i :| 0 <= i < |d| && Keys(d)[i] == k;
      assert d[i] in multiset(s);
      var j :| 0 <= j < |s| && s[j] == d[i];
      assert Keys(s)[j] == k;
    }
  }

  /** The index of the first of `names` that is a key of `d` (`for name in names: if name in streams`), or `|names|`. */
  function FirstPresent(names: seq<string>, d: Streams): (k: nat)
    ensures k <= |names|
    ensures k < |names| ==> names[k] in Keys(d)
    ensures forall i :: 0 <= i < k ==> names[i] !in Keys(d)
  {
    if names == [] then 0
    else if names[0] in Keys(d) then 0
    else 1 + FirstPresent(names[1..], d)
  }

  // ---------------------------------------------------------------------------
  // Fail-over candidates.

  /** `sub` occurs in `s` at index `i`. */
  predicate OccursAt(sub: string, s: string, i: nat)
  {
    i + |sub| <= |s| && s[i..i + |sub|] == sub
  }

  /** `sub in s` on Python strings: `sub` occurs somewhere in `s`. */
  ghost predicate Occurs(sub: string, s: string)
  {
    exists i: nat :: OccursAt(sub, s, i)
  }

  /** The substring test, by scanning `s` from index `from`. */
  function OccursFrom(sub: string, s: string, from: nat): (b: bool)
    decreases |s| - from
    ensures b <==> exists i: nat :: from <= i && OccursAt(sub, s, i)
  {
    if from + |sub| > |s| then false
    else OccursAt(sub, s, from) || OccursFrom(sub, s, from + 1)
  }

  /** The keys, in sorted order, that contain `name + "_alt"` anywhere. */
  function AltNames(keys: seq<string>, name: string): (r: seq<string>)
    ensures forall k :: k in r <==> k in keys && Occurs(name + "_alt", k)
  {
    if keys == [] then []
    else (if OccursFrom(name + "_alt", keys[0], 0) then [keys[0]] else []) + AltNames(keys[1..], name)
  }

  /** The names `handle_stream` tries, in order: the resolved name, then its "_alt" streams in sorted order. */
  function Candidates(d: Streams, name: string): (c: seq<string>)
    ensures |c| >= 1 && c[0] == name
    ensures forall k :: k in c[1..] <==> k in Keys(d) && Occurs(name + "_alt", k)
  {
    var sorted := SortByName(d);
    SortByNameCorrect(d);
    assert forall k :: k in Keys(sorted) <==> k in Keys(d) by {
      forall k ensures k in Keys(sorted) <==> k in Keys(d) {
        SameKeys(sorted, d, k);
      }
    }
    [name] + AltNames(Keys(sorted), name)
  }

  /** Names in ascending order. */
  predicate Ascending(ks: seq<string>)
  {
    forall i :: 0 < i < |ks| ==> StrLe(ks[i - 1], ks[i])
  }

  /** Filtering sorted keys keeps them sorted, and keeps them above the first key. */
  lemma {:induction false} AltNamesAscending(keys: seq<string>, name: string)
    requires Ascending(keys)
    ensures Ascending(AltNames(keys, name))
    ensures keys != [] ==> forall x :: x in AltNames(keys, name) ==> StrLe(keys[0], x)
  {
    if keys != [] {
      var rest := AltNames(keys[1..], name);
      assert Ascending(keys[1..]) by {
        forall i | 0 < i < |keys[1..]|
          ensures StrLe(keys[1..][i - 1], keys[1..][i])
        {
          assert keys[1..][i - 1] == keys[i] && keys[1..][i] == keys[i + 1];
        }
      }
      AltNamesAscending(keys[1..], name);
      forall x | x in AltNames(keys, name)
        ensures StrLe(keys[0], x)
      {
        if x == keys[0] {
          StrLeReflexive(x);
        } else {
          assert x in rest;
          StrLeTransitive(keys[0], keys[1], x);
        }
      }
    }
  }

  /**
   * The fail-overs come in sorted order of their names, as
   * `sorted(streams.keys())` gives them.
   */
  lemma CandidatesAscending(d: Streams, name: string)
    ensures Ascending(Candidates(d, name)[1..])
  {
    var sorted := SortByName(d);
    SortByNameCorrect(d);
    assert Ascending(Keys(sorted));
    AltNamesAscending(Keys(sorted), name);
    assert Candidates(d, name)[1..] == AltNames(Keys(sorted), name);
  }
}
