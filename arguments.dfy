/**
 * Argument maps and the descriptors the tests document produces. An argument
 * object is known by its class and by what its `toString()` returns; a map of
 * arguments carries the id of the tag it was read from.
 */
module Arguments {
  import opened Common

  const STRING_CLASS := "java.lang.String"

  /** An argument object: its class, and the text its `toString()` returns. */
  datatype Value = Value(kindClass: string, text: string)

  /** `instanceof String`. */
  predicate IsString(v: Value)
  {
    v.kindClass == STRING_CLASS
  }

  /** A `java.lang.String`, whose `toString()` is itself. */
  function StringValue(s: string): Value
  {
    Value(STRING_CLASS, s)
  }

  /** `TestArguments`: a string-keyed map of argument objects, with an id. */
  datatype TestArguments = TestArguments(id: string, entries: map<string, Value>)

  /** `put`: stores `v` under `key`, replacing any earlier value. */
  function Put(a: TestArguments, key: string, v: Value): TestArguments
  {
    a.(entries := a.entries[key := v])
  }

  /** `get`: the value stored under `key`, or null. */
  function Get(a: TestArguments, key: string): Option<Value>
  {
    if key in a.entries then Some(a.entries[key]) else None
  }

  /** What a lookup of the map as a substitution source sees: each value's `toString()`. */
  function Texts(a: TestArguments): map<string, string>
  {
    map k | k in a.entries :: a.entries[k].text
  }

  /** A stored value is read back; every other key keeps what it had. */
  lemma PutThenGet(a: TestArguments, key: string, v: Value, other: string)
    ensures Get(Put(a, key, v), key) == Some(v)
    ensures other != key ==> Get(Put(a, key, v), other) == Get(a, other)
    ensures Put(a, key, v).id == a.id
    ensures Put(a, key, v).entries.Keys == a.entries.Keys + {key}
  {
  }

  /** `order` lists every key of `entries` once: an iteration order of the key set. */
  predicate KeyOrder(order: seq<string>, entries: map<string, Value>)
  {
    (forall i, j | 0 <= i < j < |order| :: order[i] != order[j])
    && (forall i | 0 <= i < |order| :: order[i] in entries)
    && (forall k | k in entries :: k in order)
  }

  /** Every key of `order` is a key of `entries`. */
  predicate Listed(order: seq<string>, entries: map<string, Value>)
  {
    forall i | 0 <= i < |order| :: order[i] in entries
  }

  /** One entry of the text form: the quoted key, a colon, the value's text. */
  function EntryText(key: string, v: Value): string
  {
    "'" + key + "'" + ": " + v.text
  }

  function EntryTexts(order: seq<string>, entries: map<string, Value>): seq<string>
    requires Listed(order, entries)
  {
    seq(|order|, i requires 0 <= i < |order| => EntryText(order[i], entries[order[i]]))
  }

  /** The text form for the key order `order`: the id in brackets, then the entries in braces. */
  function Render(id: string, order: seq<string>, entries: map<string, Value>): string
    requires Listed(order, entries)
  {
    "[" + id + "]" + " {" + Join(EntryTexts(order, entries), ", ") + "}"
  }

  /** `order` and `remaining` split the keys of `entries`: the keys visited and those still to visit. */
  ghost predicate Walked(order: seq<string>, remaining: set<string>, entries: map<string, Value>)
  {
    remaining <= entries.Keys
    && (forall i | 0 <= i < |order| :: order[i] in entries && order[i] !in remaining)
    && (forall i, j | 0 <= i < j < |order| :: order[i] != order[j])
    && (forall k | k in entries :: k in remaining || k in order)
  }

  /**
   * `toString`: walks the key set in its (unspecified) order, `order`, and
   * writes a separator after every entry but the last.
   */
  method ToString(a: TestArguments) returns (s: string, ghost order: seq<string>)
    ensures KeyOrder(order, a.entries)
    ensures s == Render(a.id, order, a.entries)
  {
    var head := "[" + a.id + "]" + " {";
    var repr := head;
    var noEntries := |a.entries| - 1;
    var count := 0;
    var remaining := a.entries.Keys;
    order := [];
    while remaining != {}
      invariant Walked(order, remaining, a.entries)
      invariant count == |order| && |a.entries| == |remaining| + count
      invariant repr == head + Join(EntryTexts(order, a.entries), ", ") + (if 0 < count && remaining != {} then ", " else "")
      decreases remaining
    {
      var key :| key in remaining;
      var entry := "'" + key + "'" + ": " + a.entries[key].text;
      assert entry == EntryText(key, a.entries[key]);
      WrittenStep(head, order, key, a.entries, repr, entry);
      repr := repr + entry;
      var rest := remaining - {key};
      assert |remaining - {key}| == |remaining| - 1;
      assert |rest| + count + 1 == |a.entries|;
      if count < noEntries {
        repr := repr + ", ";
      }
      count := count + 1;
      order := order + [key];
      remaining := rest;
    }
    repr := repr + "}";
    s := repr;
  }

  /** `keySet()` as the iteration sees it: every key once, in the map's (unspecified) order. */
  method KeySet(a: TestArguments) returns (keys: seq<string>)
    ensures KeyOrder(keys, a.entries)
  {
    keys := [];
    var remaining := a.entries.Keys;
    while remaining != {}
      invariant Walked(keys, remaining, a.entries)
      decreases remaining
    {
      var key :| key in remaining;
      keys := keys + [key];
      remaining := remaining - {key};
    }
  }

  /** Some iteration order of the key set, for the maps an iteration never reached. */
  ghost function SomeKeyOrder(entries: map<string, Value>): (order: seq<string>)
    ensures KeyOrder(order, entries)
    decreases |entries|
  {
    if entries == map[] then []
    else
      var key :| key in entries;
      var rest := entries - {key};
      assert |rest| < |entries| by { assert rest.Keys == entries.Keys - {key}; }
      SomeKeyOrder(rest) + [key]
  }

  /** Writing one more entry extends the text by that entry, after a separator when it is not the first. */
  lemma WrittenStep(head: string, order: seq<string>, key: string, entries: map<string, Value>, repr: string, entry: string)
    requires Listed(order, entries)
    requires key in entries && entry == EntryText(key, entries[key])
    requires repr == head + Join(EntryTexts(order, entries), ", ") + (if order != [] then ", " else "")
    ensures repr + entry == head + Join(EntryTexts(order + [key], entries), ", ")
  {
    var joined := Join(EntryTexts(order, entries), ", ");
    var sep: string := if order != [] then ", " else "";
    EntryStep(order, key, entries);
    assert head + joined + sep + entry == head + (joined + sep + entry);
  }

  /** The joined entries grow by a separator, when there were entries, and the new entry. */
  lemma EntryStep(order: seq<string>, key: string, entries: map<string, Value>)
    requires Listed(order, entries)
    requires key in entries
    ensures Join(EntryTexts(order + [key], entries), ", ")
      == Join(EntryTexts(order, entries), ", ") + (if order != [] then ", " else "") + EntryText(key, entries[key])
  {
    var texts := EntryTexts(order, entries);
    var entry := EntryText(key, entries[key]);
    assert EntryTexts(order + [key], entries) == texts + [entry];
    if order != [] {
      JoinSnoc(texts, entry, ", ");
    } else {
      assert texts + [entry] == [entry];
      assert Join([entry], ", ") == entry;
      assert Join(texts, ", ") == "";
    }
  }

  /** An empty map renders as its id in brackets followed by empty braces. */
  lemma RenderEmpty(id: string)
    ensures Render(id, [], map[]) == "[" + id + "] {}"
  {
  }

  /** The text always opens with the bracketed id and a brace and closes with a brace. */
  lemma RenderShape(id: string, order: seq<string>, entries: map<string, Value>)
    requires Listed(order, entries)
    ensures var r := Render(id, order, entries); var h := "[" + id + "] {";
      |r| >= |h| + 1 && r[..|h|] == h && r[|r| - 1] == '}'
  {
  }

  /** One more entry adds exactly a separator and that entry before the closing brace. */
  lemma {:induction false} RenderSnoc(id: string, order: seq<string>, key: string, entries: map<string, Value>)
    requires Listed(order, entries)
    requires key in entries && order != []
    ensures Render(id, order + [key], entries)
      == "[" + id + "] {" + Join(EntryTexts(order, entries), ", ") + ", " + EntryText(key, entries[key]) + "}"
  {
    assert EntryTexts(order + [key], entries) == EntryTexts(order, entries) + [EntryText(key, entries[key])];
    JoinSnoc(EntryTexts(order, entries), EntryText(key, entries[key]), ", ");
  }

  /** A single entry renders without any separator. */
  lemma RenderSingle(id: string, key: string, v: Value)
    ensures Render(id, [key], map[key := v]) == "[" + id + "] {'" + key + "': " + v.text + "}"
  {
    assert EntryTexts([key], map[key := v]) == [EntryText(key, v)];
  }

  /** A test of a test case: its id and its arguments. */
  datatype TestDescriptor = TestDescriptor(id: string, arguments: TestArguments)

  /**
   * A test case read from the tests document: id, description, the
   * capability's implementation class, its tests in document order, the
   * capability's set-up arguments and the case's environment.
   */
  datatype TestCaseDescriptor = TestCaseDescriptor(
    id: string,
    description: string,
    className: string,
    tests: seq<TestDescriptor>,
    setUpInfo: TestArguments,
    environment: map<string, string>)
}
