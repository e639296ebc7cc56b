/**
 * The `godot:"..."` struct-tag parser (pkg/wrapper/prepare.go, parseTag).
 * A tag is a comma-separated list of `key=value` segments. The keys `name`,
 * `get` and `set` are recognised; every other segment is ignored without an
 * error, and a key given twice keeps its last value.
 */
module Tags {
  import opened Wrappers
  import opened Strings

  /** The recognised overrides; an empty string means "not given". */
  datatype TagData = TagData(name: string, getter: string, setter: string)

  /** A segment that splits on '=' into exactly two parts, as (key, value). */
  function Assignment(segment: string): Option<(string, string)>
  {
    var parts := Split(segment, '=');
    if |parts| == 2 then Some((parts[0], parts[1])) else None
  }

  /** The value of the last segment that assigns key, or "" if none does. */
  function LastValue(segments: seq<string>, key: string): string
  {
    if segments == [] then ""
    else
      var a := Assignment(segments[|segments| - 1]);
      if a.Some? && a.value.0 == key then a.value.1
      else LastValue(segments[..|segments| - 1], key)
  }

  /** What parsing a tag means: nothing for the empty tag, else the last value of each key. */
  function ParsedTag(tag: string): Option<TagData>
  {
    if tag == "" then None
    else
      var segments := Split(tag, ',');
      Some(TagData(LastValue(segments, "name"), LastValue(segments, "get"), LastValue(segments, "set")))
  }

  /** parseTag: one pass over the segments, overwriting the record's fields. */
  method ParseTag(tag: string) returns (r: Option<TagData>)
    ensures r.None? <==> tag == ""
    ensures r == ParsedTag(tag)
  {
    if tag == "" {
      return None;
    }
    var fields := Split(tag, ',');
    var data := TagData("", "", "");
    for i := 0 to |fields|
      invariant data == TagData(LastValue(fields[..i], "name"), LastValue(fields[..i], "get"),
                                LastValue(fields[..i], "set"))
    {
      assert fields[..i + 1][..i] == fields[..i];
      var parts := Split(fields[i], '=');
      if |parts| != 2 {
        continue;
      }
      if parts[0] == "name" {
        data := data.(name := parts[1]);
      } else if parts[0] == "get" {
        data := data.(getter := parts[1]);
      } else if parts[0] == "set" {
        data := data.(setter := parts[1]);
      }
    }
    assert fields[..|fields|] == fields;
    return Some(data);
  }

  /** A segment is an assignment exactly when it holds one '=', and then it is key + "=" + value. */
  lemma AssignmentExact(segment: string)
    ensures Assignment(segment).Some? <==> Count(segment, '=') == 1
    ensures Assignment(segment).Some? ==>
              var (k, v) := Assignment(segment).value;
              segment == k + "=" + v && '=' !in k && '=' !in v
  {
    SplitLength(segment, '=');
    SplitPiecesAvoidSep(segment, '=');
    JoinSplit(segment, '=');
    var parts := Split(segment, '=');
    if |parts| == 2 {
      assert Join(parts[1..], '=') == parts[1];
    }
  }

  /** The last assignment of a key decides its value. */
  lemma {:induction false} LastValueIsLast(segments: seq<string>, key: string, i: nat, v: string)
    requires i < |segments| && Assignment(segments[i]) == Some((key, v))
    requires forall j :: i < j < |segments| ==> Assignment(segments[j]).None? || Assignment(segments[j]).value.0 != key
    ensures LastValue(segments, key) == v
    decreases |segments|
  {
    if i < |segments| - 1 {
      var init := segments[..|segments| - 1];
      assert forall j :: i < j < |init| ==> init[j] == segments[j];
      LastValueIsLast(init, key, i, v);
    }
  }

  /** A key no segment assigns is read as "". */
  lemma {:induction false} LastValueAbsent(segments: seq<string>, key: string)
    requires forall j :: 0 <= j < |segments| ==> Assignment(segments[j]).None? || Assignment(segments[j]).value.0 != key
    ensures LastValue(segments, key) == ""
  {
    if segments != [] {
      var init := segments[..|segments| - 1];
      assert forall j :: 0 <= j < |init| ==> init[j] == segments[j];
      LastValueAbsent(init, key);
    }
  }

  /** The field of a record that a recognised key sets. */
  function Field(d: TagData, key: string): string
  {
    if key == "name" then d.name else if key == "get" then d.getter else if key == "set" then d.setter else ""
  }

  /** Appending a segment to a non-empty tag adds one segment to its split. */
  lemma SegmentsAppend(tag: string, segment: string)
    requires ',' !in segment
    ensures Split(tag + "," + segment, ',') == Split(tag, ',') + [segment]
  {
    SplitAppend(tag, segment, ',');
    SplitNoSep(segment, ',');
  }

  /**
   * Permissive parsing: a segment that is not exactly one `key=value`
   * (such as `a=b=c` or `x`) or whose key is unknown changes nothing.
   */
  lemma ParseTagIgnoresSegment(tag: string, segment: string)
    requires tag != "" && ',' !in segment
    requires Assignment(segment).None? || Assignment(segment).value.0 !in {"name", "get", "set"}
    ensures ParsedTag(tag + "," + segment) == ParsedTag(tag)
  {
    SegmentsAppend(tag, segment);
    var segments := Split(tag, ',');
    assert (segments + [segment])[..|segments|] == segments;
  }

  /** `key=value` with no '=' in either part is the assignment of value to key. */
  lemma AssignmentOf(key: string, v: string)
    requires '=' !in key && '=' !in v
    ensures Assignment(key + "=" + v) == Some((key, v))
  {
    assert key + "=" + v == key + ['='] + v;
    SplitAppend(key, v, '=');
    SplitNoSep(key, '=');
    SplitNoSep(v, '=');
  }

  /** For a repeated key, the last occurrence wins. */
  lemma ParseTagLastWins(tag: string, key: string, v: string)
    requires tag != "" && key in {"name", "get", "set"}
    requires ',' !in v && '=' !in v
    ensures ParsedTag(tag + "," + key + "=" + v).Some?
    ensures Field(ParsedTag(tag + "," + key + "=" + v).value, key) == v
  {
    var segment := key + "=" + v;
    assert tag + "," + key + "=" + v == tag + "," + segment;
    assert ',' !in segment;
    SegmentsAppend(tag, segment);
    AssignmentOf(key, v);
  }
}
