/** Resource results on their way out of an executor and back to a client: the printer of
    internal/egress/mcpconv/mcpconv.go and the reader of internal/ingress/pkg/dispatch.go. */
module Resources {
  import opened Basics

  /** The values of a map[string]any that the reader tells apart. */
  datatype Value =
    | Text(text: string)
    | Bytes(bytes: seq<bv8>)
    | Object(fields: map<string, Value>)
    | Objects(objects: seq<map<string, Value>>)
    | List(values: seq<Value>)
    | Other

  /** An SDK resource entry. A nil blob and an empty one are the same here. */
  datatype Contents = Contents(uri: string, mimeType: string, text: string, blob: seq<bv8>)

  /** None is a nil map or a nil result. */
  type Output = Option<map<string, Value>>

  const CONTENTS := "contents"
  const URI := "uri"
  const MIME_TYPE := "mimeType"
  const TEXT := "text"
  const BLOB := "blob"

  /** The entries a slice of pointers holds. */
  function NonNil(contents: seq<Option<Contents>>): seq<Contents> {
    if contents == [] then []
    else NonNil(Front(contents)) + if Last(contents).Some? then [Last(contents).value] else []
  }

  /** Object o says what entry c holds: its URI always, the other fields where non-empty,
      and nothing else. */
  ghost predicate Describes(o: map<string, Value>, c: Contents) {
    && o.Keys == {URI} + (if c.mimeType != "" then {MIME_TYPE} else {}) +
                 (if c.text != "" then {TEXT} else {}) + (if c.blob != [] then {BLOB} else {})
    && o[URI] == Text(c.uri)
    && (c.mimeType != "" ==> o[MIME_TYPE] == Text(c.mimeType))
    && (c.text != "" ==> o[TEXT] == Text(c.text))
    && (c.blob != [] ==> o[BLOB] == Bytes(c.blob))
  }

  method PrintItem(c: Contents) returns (o: map<string, Value>)
    ensures Describes(o, c)
  {
    o := map[URI := Text(c.uri)];
    if c.mimeType != "" {
      o := o[MIME_TYPE := Text(c.mimeType)];
    }
    if c.text != "" {
      o := o[TEXT := Text(c.text)];
    }
    if |c.blob| > 0 {
      o := o[BLOB := Bytes(c.blob)];
    }
  }

  /** The output of a resource result: nil for nil, no key for no entries, and otherwise one
      object for each non-nil entry, in order. */
  ghost predicate Prints(result: Option<seq<Option<Contents>>>, out: Output) {
    if result.None? then out.None?
    else if result.value == [] then out == Some(map[])
    else
      && out.Some? && out.value.Keys == {CONTENTS} && out.value[CONTENTS].Objects?
      && DescribesAll(out.value[CONTENTS].objects, NonNil(result.value))
  }

  ghost predicate DescribesAll(os: seq<map<string, Value>>, cs: seq<Contents>) {
    |os| == |cs| && forall i :: 0 <= i < |os| ==> Describes(os[i], cs[i])
  }

  method ReadResourceResultToOutput(result: Option<seq<Option<Contents>>>) returns (out: Output)
    ensures Prints(result, out)
  {
    if result.None? {
      return None;
    }
    var contents := result.value;
    if |contents| == 0 {
      return Some(map[]);
    }
    var items: seq<map<string, Value>> := [];
    for i := 0 to |contents|
      invariant DescribesAll(items, NonNil(contents[..i]))
    {
      assert Front(contents[..i + 1]) == contents[..i];
      if contents[i].Some? {
        var item := PrintItem(contents[i].value);
        items := items + [item];
      }
    }
    assert contents[..|contents|] == contents;
    return Some(map[CONTENTS := Objects(items)]);
  }

  // ---- Reading ----------------------------------------------------------------

  function TextAt(o: map<string, Value>, key: string): string {
    if key in o && o[key].Text? then o[key].text else ""
  }

  function BytesAt(o: map<string, Value>, key: string): seq<bv8> {
    if key in o && o[key].Bytes? then o[key].bytes else []
  }

  /** A missing or mistyped field reads as empty. */
  function ReadItem(o: map<string, Value>): Contents {
    Contents(TextAt(o, URI), TextAt(o, MIME_TYPE), TextAt(o, TEXT), BytesAt(o, BLOB))
  }

  /** The objects of a []any; everything else in it is skipped. */
  function ObjectsOf(values: seq<Value>): seq<map<string, Value>> {
    if values == [] then []
    else ObjectsOf(Front(values)) + if Last(values).Object? then [Last(values).fields] else []
  }

  function ItemsOf(v: Value): seq<map<string, Value>> {
    match v
    case Objects(os) => os
    case List(values) => ObjectsOf(values)
    case _ => []
  }

  /** json is what marshalling the whole output yields, if it succeeds. */
  function ReadBack(out: Output, json: Option<string>): seq<Contents> {
    if out.None? then []
    else if CONTENTS !in out.value then (if json.Some? then [Contents("", "", json.value, [])] else [])
    else
      var items := ItemsOf(out.value[CONTENTS]);
      seq(|items|, i requires 0 <= i < |items| => ReadItem(items[i]))
  }

  method OutputToReadResourceResult(out: Output, json: Option<string>) returns (contents: seq<Contents>)
    ensures contents == ReadBack(out, json)
  {
    contents := [];
    if out.None? {
      return;
    }
    if CONTENTS !in out.value {
      if json.Some? {
        contents := [Contents("", "", json.value, [])];
      }
      return;
    }
    var items: seq<map<string, Value>> := [];
    match out.value[CONTENTS] {
      case Objects(os) => items := os;
      case List(values) => items := CollectObjects(values);
      case _ =>
    }
    for i := 0 to |items|
      invariant contents == seq(i, k requires 0 <= k < i => ReadItem(items[k]))
    {
      var c := Contents("", "", "", []);
      var item := items[i];
      if URI in item && item[URI].Text? && item[URI].text != "" {
        c := c.(uri := item[URI].text);
      }
      if MIME_TYPE in item && item[MIME_TYPE].Text? && item[MIME_TYPE].text != "" {
        c := c.(mimeType := item[MIME_TYPE].text);
      }
      if TEXT in item && item[TEXT].Text? && item[TEXT].text != "" {
        c := c.(text := item[TEXT].text);
      }
      if BLOB in item && item[BLOB].Bytes? && |item[BLOB].bytes| > 0 {
        c := c.(blob := item[BLOB].bytes);
      }
      assert c == ReadItem(item);
      contents := contents + [c];
    }
  }

  method CollectObjects(values: seq<Value>) returns (items: seq<map<string, Value>>)
    ensures items == ObjectsOf(values)
  {
    items := [];
    for i := 0 to |values|
      invariant items == ObjectsOf(values[..i])
    {
      assert Front(values[..i + 1]) == values[..i];
      if values[i].Object? {
        items := items + [values[i].fields];
      }
    }
    assert values[..|values|] == values;
  }

  // ---- The round trip ---------------------------------------------------------

  /** Reading undoes printing, entry by entry. */
  lemma ItemRoundTrip(o: map<string, Value>, c: Contents)
    requires Describes(o, c)
    ensures ReadItem(o) == c
  {
    assert URI in o;
    assert MIME_TYPE in o <==> c.mimeType != "";
    assert TEXT in o <==> c.text != "";
    assert BLOB in o <==> c.blob != [];
  }

  /** Reading back what any result prints yields exactly its non-nil entries, in order and
      unchanged, if and only if it has at least one entry, nil ones included. A result with
      none reads back as one entry whose text is the marshalled empty output. */
  lemma ResultRoundTrip(result: seq<Option<Contents>>, out: Output, json: string)
    requires Prints(Some(result), out)
    ensures ReadBack(out, Some(json)) == NonNil(result) <==> result != []
    ensures result == [] ==> ReadBack(out, Some(json)) == [Contents("", "", json, [])]
  {
    if result != [] {
      var os := out.value[CONTENTS].objects;
      forall i | 0 <= i < |os|
        ensures ReadItem(os[i]) == NonNil(result)[i]
      {
        ItemRoundTrip(os[i], NonNil(result)[i]);
      }
    }
  }

  /** NonNil drops the nil entries and keeps the order of the others. */
  lemma {:induction false} NonNilInOrder(a: seq<Option<Contents>>, b: seq<Option<Contents>>, c: Contents)
    ensures NonNil(a + b) == NonNil(a) + NonNil(b)
    ensures NonNil([Some(c)]) == [c] && NonNil([None]) == []
    decreases |b|
  {
    if b == [] {
      assert a + b == a;
    } else {
      NonNilInOrder(a, Front(b), c);
      assert Front(a + b) == a + Front(b);
    }
  }

  lemma {:induction false} NonNilOfNone(result: seq<Option<Contents>>)
    requires forall i :: 0 <= i < |result| ==> result[i].Some?
    ensures |NonNil(result)| == |result|
    ensures forall i :: 0 <= i < |result| ==> NonNil(result)[i] == result[i].value
  {
    if result != [] {
      NonNilOfNone(Front(result));
    }
  }

  /** In particular a result without nil entries comes back entry for entry. */
  lemma RoundTripInOrder(result: seq<Option<Contents>>, out: Output, json: string)
    requires Prints(Some(result), out) && result != []
    requires forall i :: 0 <= i < |result| ==> result[i].Some?
    ensures |ReadBack(out, Some(json))| == |result|
    ensures forall i :: 0 <= i < |result| ==> ReadBack(out, Some(json))[i] == result[i].value
  {
    ResultRoundTrip(result, out, json);
    NonNilOfNone(result);
  }

  /** A nil result reads back as an empty one. */
  lemma NilRoundTrip(out: Output, json: Option<string>)
    requires Prints(None, out)
    ensures ReadBack(out, json) == []
  {
  }

  /** A []any that holds the same objects among anything else reads the same as the slice of
      those objects. */
  lemma ListReadsAsObjects(out: map<string, Value>, values: seq<Value>, json: Option<string>)
    ensures ReadBack(Some(out[CONTENTS := List(values)]), json)
         == ReadBack(Some(out[CONTENTS := Objects(ObjectsOf(values))]), json)
  {
  }

  /** ObjectsOf keeps exactly the objects of a mixed slice, in their order. */
  lemma {:induction false} ObjectsInOrder(a: seq<Value>, b: seq<Value>, v: Value)
    ensures ObjectsOf(a + b) == ObjectsOf(a) + ObjectsOf(b)
    ensures ObjectsOf([v]) == if v.Object? then [v.fields] else []
    decreases |b|
  {
    if b == [] {
      assert a + b == a;
    } else {
      ObjectsInOrder(a, Front(b), v);
      assert Front(a + b) == a + Front(b);
    }
  }

  /** What else an output may be: without contents it reads as one entry of its JSON text, if
      there is any; with contents that are no slice, as no entry. */
  lemma OtherOutputsRead(out: map<string, Value>, json: Option<string>)
    ensures CONTENTS !in out ==>
      ReadBack(Some(out), json) == if json.Some? then [Contents("", "", json.value, [])] else []
    ensures CONTENTS in out && !out[CONTENTS].Objects? && !out[CONTENTS].List? ==> ReadBack(Some(out), json) == []
  {
  }

  /** A field reads as empty exactly if it is missing, mistyped or empty. */
  lemma FieldReadsEmptyExactly(o: map<string, Value>)
    ensures var c := ReadItem(o);
      && (c.uri == "" <==> "uri" !in o || !o["uri"].Text? || o["uri"].text == "")
      && (c.mimeType == "" <==> "mimeType" !in o || !o["mimeType"].Text? || o["mimeType"].text == "")
      && (c.text == "" <==> "text" !in o || !o["text"].Text? || o["text"].text == "")
      && (c.blob == [] <==> "blob" !in o || !o["blob"].Bytes? || o["blob"].bytes == [])
  {
  }

  /** An object as it comes back from JSON: bytes have become their base64 text. */
  function Decoded(o: map<string, Value>, base64: seq<bv8> -> string): map<string, Value> {
    map k | k in o :: if o[k].Bytes? then Text(base64(o[k].bytes)) else o[k]
  }

  /** So an entry that has been through JSON reads back unchanged if and only if it has no
      blob; a blob is lost. */
  lemma JsonRoundTripExactly(o: map<string, Value>, c: Contents, base64: seq<bv8> -> string)
    requires Describes(o, c)
    ensures ReadItem(Decoded(o, base64)) == c.(blob := [])
    ensures ReadItem(Decoded(o, base64)) == c <==> c.blob == []
  {
    ItemRoundTrip(o, c);
    assert Decoded(o, base64).Keys == o.Keys;
    assert BLOB in o ==> !Decoded(o, base64)[BLOB].Bytes?;
  }

  /** A slice of pointers to the entries. */
  function Pointers(cs: seq<Contents>): seq<Option<Contents>> {
    if cs == [] then [] else Pointers(Front(cs)) + [Some(Last(cs))]
  }

  lemma {:induction false} PointersAreNonNil(cs: seq<Contents>)
    ensures NonNil(Pointers(cs)) == cs
  {
    if cs != [] {
      PointersAreNonNil(Front(cs));
      assert Front(Pointers(cs)) == Pointers(Front(cs));
    }
  }

  /** Whatever the output of an executor, what the reader makes of it survives another trip
      through the printer and the reader, unless it is empty. */
  lemma ReadIsStable(out: Output, json: Option<string>, again: Output, json': string)
    requires ReadBack(out, json) != []
    requires Prints(Some(Pointers(ReadBack(out, json))), again)
    ensures ReadBack(again, Some(json')) == ReadBack(out, json)
  {
    PointersAreNonNil(ReadBack(out, json));
    ResultRoundTrip(Pointers(ReadBack(out, json)), again, json');
  }
}
