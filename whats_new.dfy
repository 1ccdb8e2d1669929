/** The changelog page's normaliser: either shape of the `/v2/changelog` answer (an array
    of entries, or one object with an `entries` list) flattened into a list of
    version / date / lines records. */
module WhatsNew {
  import opened Base
  import opened Js

  /** `FlattenedEntry`: an optional version and date, and the entry's lines. */
  datatype FlattenedEntry = FlattenedEntry(version: Option<string>, date: Option<string>, items: seq<string>)

  /** `items.filter(item => typeof item === "string")`, unwrapped. */
  function StringsOf(items: seq<Json>): (r: seq<string>)
    ensures |r| <= |items|
    ensures forall s :: s in r <==> JString(s) in items
    ensures (forall i :: 0 <= i < |items| ==> items[i].JString?) ==> |r| == |items|
    decreases |items|
  {
    if items == [] then []
    else
      var rest := StringsOf(items[1..]);
      assert forall s :: JString(s) in items <==> JString(s) == items[0] || JString(s) in items[1..];
      if items[0].JString? then [items[0].s] + rest else rest
  }

  /** Filtering keeps the strings in their order: it distributes over concatenation. */
  lemma {:induction false} StringsOfAppend(a: seq<Json>, b: seq<Json>)
    ensures StringsOf(a + b) == StringsOf(a) + StringsOf(b)
    decreases |a|
  {
    if a != [] {
      var x, rest := a[0], a[1..];
      assert a == [x] + rest && a + b == [x] + (rest + b);
      StringsOfCons(x, rest);
      StringsOfCons(x, rest + b);
      StringsOfAppend(rest, b);
    } else {
      assert a + b == b;
    }
  }

  lemma StringsOfCons(x: Json, rest: seq<Json>)
    ensures StringsOf([x] + rest) == (if x.JString? then [x.s] else []) + StringsOf(rest)
  {
    assert ([x] + rest)[0] == x && ([x] + rest)[1..] == rest;
  }

  /** A list made only of strings is kept as it is. */
  lemma {:induction false} StringsOfAllStrings(items: seq<Json>)
    requires forall i :: 0 <= i < |items| ==> items[i].JString?
    ensures forall i :: 0 <= i < |items| ==> StringsOf(items)[i] == items[i].s
    decreases |items|
  {
    if items != [] {
      StringsOfAllStrings(items[1..]);
      assert StringsOf(items) == [items[0].s] + StringsOf(items[1..]);
    }
  }

  /** `typeof v === "string" ? v : undefined`. */
  function StringMember(v: Option<Json>): (r: Option<string>)
    ensures r.Some? <==> v.Some? && v.value.JString?
    ensures r.Some? ==> v == Some(JString(r.value))
  {
    if v.Some? && v.value.JString? then Some(v.value.s) else None
  }

  /** `Array.isArray(v) ? v.filter(isString) : []`. */
  function LinesOf(v: Option<Json>): (r: seq<string>)
    ensures forall s :: s in r <==> v.Some? && v.value.JArray? && JString(s) in v.value.items
  {
    if v.Some? && v.value.JArray? then StringsOf(v.value.items) else []
  }

  /** The record for one element of an array answer: `version` and `date` kept only when they
      are strings, and the string lines of `entries` when it is an array. */
  function FlattenEntry(entry: Json): (r: FlattenedEntry)
    ensures r.version.Some? <==> Get(entry, "version").Some? && Get(entry, "version").value.JString?
    ensures r.version.Some? ==> Get(entry, "version") == Some(JString(r.version.value))
    ensures r.date.Some? <==> Get(entry, "date").Some? && Get(entry, "date").value.JString?
    ensures r.date.Some? ==> Get(entry, "date") == Some(JString(r.date.value))
    ensures forall s :: s in r.items <==>
      Get(entry, "entries").Some? && Get(entry, "entries").value.JArray? && JString(s) in Get(entry, "entries").value.items
  {
    FlattenedEntry(StringMember(Get(entry, "version")), StringMember(Get(entry, "date")), LinesOf(Get(entry, "entries")))
  }

  /** `response.map(...)`: one record per element, in order; the first `null` element makes
      the callback throw when it reads `entry.version`. */
  function FlattenAll(entries: seq<Json>): (r: Result<seq<FlattenedEntry>, JsError>)
    ensures r.Err? <==> JNull in entries
    ensures r.Err? ==> r.error == NullPropertyRead
    ensures r.Ok? ==> |r.value| == |entries|
    ensures r.Ok? ==> forall i :: 0 <= i < |entries| ==> r.value[i] == FlattenEntry(entries[i])
    decreases |entries|
  {
    if entries == [] then Ok([])
    else if entries[0] == JNull then Err(NullPropertyRead)
    else
      var rest := FlattenAll(entries[1..]);
      assert JNull in entries <==> JNull in entries[1..];
      if rest.Err? then rest else Ok([FlattenEntry(entries[0])] + rest.value)
  }

  /** `normaliseEntries`. `None` is `undefined`. */
  function NormaliseEntries(response: Option<Json>): (r: Result<seq<FlattenedEntry>, JsError>)
    ensures response.None? || !Truthy(response.value) ==> r == Ok([])
    ensures r.Err? <==> response.Some? && response.value.JArray? && JNull in response.value.items
    ensures r.Ok? && response.Some? && response.value.JArray? ==> |r.value| == |response.value.items|
    ensures r.Ok? && !(response.Some? && response.value.JArray?) ==> |r.value| <= 1
  {
    if response.None? || !Truthy(response.value) then Ok([])
    else if response.value.JArray? then FlattenAll(response.value.items)
    else
      var lines := Get(response.value, "entries");
      if lines.Some? && Truthy(lines.value) && lines.value.JArray? then
        Ok([FlattenedEntry(None, None, StringsOf(lines.value.items))])
      else Ok([])
  }

  /** An array answer without `null` elements gives exactly one record per element, in order:
      `version` and `date` kept only when they are strings, `items` the string lines of the
      element's `entries`, or none when `entries` is not an array. */
  lemma NormaliseArray(elements: seq<Json>)
    requires JNull !in elements
    ensures var r := NormaliseEntries(Some(JArray(elements)));
      && r.Ok? && |r.value| == |elements|
      && forall i :: 0 <= i < |elements| ==>
           && (r.value[i].version.Some? <==> Get(elements[i], "version").Some? && Get(elements[i], "version").value.JString?)
           && (r.value[i].version.Some? ==> Get(elements[i], "version") == Some(JString(r.value[i].version.value)))
           && (r.value[i].date.Some? <==> Get(elements[i], "date").Some? && Get(elements[i], "date").value.JString?)
           && (r.value[i].date.Some? ==> Get(elements[i], "date") == Some(JString(r.value[i].date.value)))
           && (Get(elements[i], "entries").Some? && Get(elements[i], "entries").value.JArray? ==>
                 r.value[i].items == StringsOf(Get(elements[i], "entries").value.items))
           && (!(Get(elements[i], "entries").Some? && Get(elements[i], "entries").value.JArray?) ==> r.value[i].items == [])
  {
    var r := NormaliseEntries(Some(JArray(elements)));
    assert r == FlattenAll(elements);
    forall i | 0 <= i < |elements|
      ensures r.value[i] == FlattenEntry(elements[i])
    {
    }
  }

  /** An object whose `entries` is an array gives a single record without version or date,
      holding the string lines of `entries`. */
  lemma NormaliseEntriesObject(fields: map<string, Json>, lines: seq<Json>)
    requires "entries" in fields && fields["entries"] == JArray(lines)
    ensures NormaliseEntries(Some(JObject(fields))) == Ok([FlattenedEntry(None, None, StringsOf(lines))])
  {
  }

  /** Any other object (no `entries`, or `entries` that is not an array) gives no record. */
  lemma NormaliseOtherObject(fields: map<string, Json>)
    requires !("entries" in fields && fields["entries"].JArray?)
    ensures NormaliseEntries(Some(JObject(fields))) == Ok([])
  {
  }
}
