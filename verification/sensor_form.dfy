/**
 * The state updates of the sensor form (sensor-metadata-ui/src/sensor/SensorForm.tsx):
 * the next form data after an input changes, after a reset and after a submit, the
 * comma-separated tags text in both directions, and the class of the status message.
 */
module SensorForm {
  import opened Wrappers

  datatype Location = Location(latitude: real, longitude: real)

  datatype SensorData = SensorData(name: string, description: string, tags: seq<string>, location: Location)

  /** The component's two pieces of state: the form data and the status message. */
  datatype FormState = FormState(data: SensorData, message: string)

  /** The `name` attributes of the five inputs the form renders. */
  datatype Field = NameInput | DescriptionInput | TagsInput | LatitudeInput | LongitudeInput

  const InitialSensorData := SensorData("", "", [], Location(0.0, 0.0))
  const InitialState := FormState(InitialSensorData, "")

  /** The prefix that marks a status message as an error. */
  const ErrorPrefix := "An error"
  const SuccessMessage := "Sensor data saved successfully!"
  const FailureMessage := ErrorPrefix + " occurred while saving sensor data."

  // ---------------------------------------------------------------------------
  // String.prototype.trim

  /** The characters `trim` strips: ECMAScript's WhiteSpace and LineTerminator. */
  predicate IsWhitespace(c: char)
  {
    || c == '\t' || c == '\n' || c == '\U{000B}' || c == '\U{000C}' || c == '\r' || c == ' '
    || c == '\U{00A0}' || c == '\U{1680}' || ('\U{2000}' <= c <= '\U{200A}')
    || c == '\U{2028}' || c == '\U{2029}' || c == '\U{202F}' || c == '\U{205F}'
    || c == '\U{3000}' || c == '\U{FEFF}'
  }

  predicate AllWhitespace(s: string)
  {
    forall i :: 0 <= i < |s| ==> IsWhitespace(s[i])
  }

  /** Neither starts nor ends with whitespace. */
  predicate IsTrimmed(s: string)
  {
    s == [] || (!IsWhitespace(s[0]) && !IsWhitespace(s[|s| - 1]))
  }

  /** The length of the whitespace run that starts `s`. */
  function LeadingWhitespace(s: string): (k: nat)
    ensures k <= |s|
    ensures forall i :: 0 <= i < k ==> IsWhitespace(s[i])
    ensures k < |s| ==> !IsWhitespace(s[k])
  {
    if s == [] || !IsWhitespace(s[0]) then 0 else 1 + LeadingWhitespace(s[1..])
  }

  /** The length of the whitespace run that ends `s`. */
  function TrailingWhitespace(s: string): (k: nat)
    ensures k <= |s|
    ensures forall i :: |s| - k <= i < |s| ==> IsWhitespace(s[i])
    ensures k < |s| ==> !IsWhitespace(s[|s| - 1 - k])
  {
    if s == [] || !IsWhitespace(s[|s| - 1]) then 0 else 1 + TrailingWhitespace(s[..|s| - 1])
  }

  function Trim(s: string): (r: string)
    ensures IsTrimmed(r)
    ensures |r| <= |s|
  {
    var rest := s[LeadingWhitespace(s)..];
    rest[..|rest| - TrailingWhitespace(rest)]
  }

  /** `trim` removes exactly the surrounding whitespace: a trimmed text with whitespace
      around it comes back as it was. */
  lemma {:induction false} TrimAround(pre: string, t: string, post: string)
    requires AllWhitespace(pre) && AllWhitespace(post) && IsTrimmed(t)
    ensures Trim(pre + t + post) == t
  {
    var s := pre + t + post;
    var k := LeadingWhitespace(s);
    if t == [] {
      assert s == pre + post;
      assert k == |s|;
    } else {
      assert s[|pre|] == t[0];
      assert k == |pre|;
      var rest := s[k..];
      assert rest == t + post;
      assert rest[|t| - 1] == t[|t| - 1];
      assert TrailingWhitespace(rest) == |post|;
    }
  }

  // ---------------------------------------------------------------------------
  // String.prototype.split(',') and Array.prototype.join

  function Count(s: string, c: char): nat
  {
    if s == [] then 0 else (if s[0] == c then 1 else 0) + Count(s[1..], c)
  }

  /** `parts.join(sep)`: the parts with `sep` between neighbours; `[]` joins to "". */
  function Join(parts: seq<string>, sep: string): string
  {
    if |parts| == 0 then ""
    else if |parts| == 1 then parts[0]
    else parts[0] + sep + Join(parts[1..], sep)
  }

  /** `s.split(sep)` for a one-character separator: the pieces between separators,
      one more than there are separators, and joining them back gives `s`. */
  function Split(s: string, sep: char): (parts: seq<string>)
    ensures |parts| == Count(s, sep) + 1
    ensures forall i :: 0 <= i < |parts| ==> sep !in parts[i]
    ensures Join(parts, [sep]) == s
  {
    if s == [] then [""]
    else
      var rest := Split(s[1..], sep);
      if s[0] == sep then
        assert [sep] + Join(rest, [sep]) == s;
        [""] + rest
      else
        var parts := [[s[0]] + rest[0]] + rest[1..];
        assert Join(parts, [sep]) == [s[0]] + Join(rest, [sep]) by {
          if |rest| > 1 {
            assert parts[1..] == rest[1..];
          }
        }
        parts
  }

  /** Splitting a joined list gives the list back when no part holds the separator. */
  lemma {:induction false} SplitJoin(parts: seq<string>, sep: char)
    requires |parts| > 0
    requires forall i :: 0 <= i < |parts| ==> sep !in parts[i]
    ensures Split(Join(parts, [sep]), sep) == parts
  {
    if |parts| == 1 {
      SplitWithoutSeparator(parts[0], sep);
    } else {
      SplitJoin(parts[1..], sep);
      SplitAtFirst(parts[0], Join(parts[1..], [sep]), sep);
      assert Join(parts, [sep]) == parts[0] + ([sep] + Join(parts[1..], [sep]));
    }
  }

  lemma {:induction false} SplitWithoutSeparator(s: string, sep: char)
    requires sep !in s
    ensures Split(s, sep) == [s]
  {
    if s != [] {
      assert sep !in s[1..];
      SplitWithoutSeparator(s[1..], sep);
    }
  }

  /** A separator-free head is the first piece; the pieces after it are those of the tail. */
  lemma {:induction false} SplitAtFirst(head: string, tail: string, sep: char)
    requires sep !in head
    ensures Split(head + ([sep] + tail), sep) == [head] + Split(tail, sep)
  {
    var s := head + ([sep] + tail);
    if head == [] {
      assert s == [sep] + tail;
      assert s[1..] == tail;
    } else {
      assert s[1..] == head[1..] + ([sep] + tail);
      assert sep !in head[1..];
      SplitAtFirst(head[1..], tail, sep);
      assert [head[0]] + head[1..] == head;
    }
  }

  // ---------------------------------------------------------------------------
  // Tags: the text typed in and the text shown

  /** `value.split(',').map(tag => tag.trim())`. */
  function ParseTags(value: string): (tags: seq<string>)
    ensures |tags| == Count(value, ',') + 1
    ensures value == "" ==> tags == [""]
    ensures forall i :: 0 <= i < |tags| ==> IsTrimmed(tags[i]) && ',' !in tags[i]
  {
    var pieces := Split(value, ',');
    seq(|pieces|, i requires 0 <= i < |pieces| => Trim(pieces[i]))
  }

  /** Every tags text is some comma-free, trimmed tags, each with whitespace (and no comma)
      around it, joined by commas; parsing it gives exactly those tags, the i-th tag
      being the i-th comma-separated piece with its surrounding whitespace removed. */
  lemma ParseTagsPieces(tags: seq<string>, pre: seq<string>, post: seq<string>)
    requires |tags| > 0 && |pre| == |tags| && |post| == |tags|
    requires forall i :: 0 <= i < |tags| ==> ',' !in tags[i] && IsTrimmed(tags[i])
    requires forall i :: 0 <= i < |tags| ==> ',' !in pre[i] && AllWhitespace(pre[i])
    requires forall i :: 0 <= i < |tags| ==> ',' !in post[i] && AllWhitespace(post[i])
    ensures ParseTags(Join(seq(|tags|, i requires 0 <= i < |tags| => pre[i] + tags[i] + post[i]), ",")) == tags
  {
    var pieces := seq(|tags|, i requires 0 <= i < |tags| => pre[i] + tags[i] + post[i]);
    forall i | 0 <= i < |tags| ensures ',' !in pieces[i] {
      assert pieces[i] == pre[i] + tags[i] + post[i];
    }
    assert [','] == ",";
    SplitJoin(pieces, ',');
    var parsed := ParseTags(Join(pieces, ","));
    forall i | 0 <= i < |tags| ensures parsed[i] == tags[i] {
      TrimAround(pre[i], tags[i], post[i]);
    }
  }

  /** `sensorData.tags.join(', ')`, the value of the tags input. */
  function DisplayTags(tags: seq<string>): string
  {
    Join(tags, ", ")
  }

  /** Each tag with the space that `join(', ')` puts before every tag but the first. */
  function Spaced(tags: seq<string>): seq<string>
  {
    seq(|tags|, i requires 0 <= i < |tags| => " " + tags[i])
  }

  /** The displayed text is the tags, each but the first with a leading space, joined by commas. */
  lemma {:induction false} DisplayIsCommaJoin(tags: seq<string>)
    requires |tags| > 0
    ensures DisplayTags(tags) == Join([tags[0]] + Spaced(tags[1..]), ",")
    ensures " " + DisplayTags(tags) == Join(Spaced(tags), ",")
  {
    if |tags| > 1 {
      var rest := tags[1..];
      DisplayIsCommaJoin(rest);
      assert DisplayTags(tags) == tags[0] + "," + (" " + DisplayTags(rest));
      assert ([tags[0]] + Spaced(rest))[1..] == Spaced(rest);
      assert Spaced(tags)[1..] == Spaced(rest);
      assert " " + DisplayTags(tags) == Spaced(tags)[0] + "," + (" " + DisplayTags(rest));
    }
  }

  /** The shown text read back through the tags input gives the same tags, for a
      non-empty list of tags without commas and without surrounding whitespace. */
  lemma DisplayRoundTrip(tags: seq<string>)
    requires |tags| > 0
    requires forall i :: 0 <= i < |tags| ==> ',' !in tags[i] && IsTrimmed(tags[i])
    ensures ParseTags(DisplayTags(tags)) == tags
  {
    var pre := seq(|tags|, i requires 0 <= i < |tags| => if i == 0 then "" else " ");
    var post := seq(|tags|, i requires 0 <= i < |tags| => "");
    ParseTagsPieces(tags, pre, post);
    DisplayIsCommaJoin(tags);
    var pieces := seq(|tags|, i requires 0 <= i < |tags| => pre[i] + tags[i] + post[i]);
    var shown := [tags[0]] + Spaced(tags[1..]);
    forall i | 0 <= i < |tags| ensures pieces[i] == shown[i] {
      if i > 0 {
        assert shown[i] == Spaced(tags[1..])[i - 1];
      }
    }
    assert pieces == shown;
  }

  /** The empty list is shown as "", and "" reads back as one empty tag, not as no tags. */
  lemma EmptyTagsDoNotRoundTrip()
    ensures DisplayTags([]) == ""
    ensures ParseTags(DisplayTags([])) == [""]
  {
  }

  // ---------------------------------------------------------------------------
  // The state updates

  /** `handleChange`: the next form data after input `field` is set to `value`.
      `parseFloat` is JavaScript's number parser, which the model leaves abstract. */
  function HandleChange(prev: SensorData, field: Field, value: string, parseFloat: string -> real)
    : (next: SensorData)
    ensures next.tags == if field == TagsInput then ParseTags(value) else prev.tags
    ensures next.location.latitude ==
              if field == LatitudeInput then parseFloat(value) else prev.location.latitude
    ensures next.location.longitude ==
              if field == LongitudeInput then parseFloat(value) else prev.location.longitude
    ensures next.name == if field == NameInput then value else prev.name
    ensures next.description == if field == DescriptionInput then value else prev.description
  {
    match field
    case TagsInput =>
      var tagsArray := ParseTags(value);
      prev.(tags := tagsArray)
    case LatitudeInput =>
      var locationValue := parseFloat(value);
      prev.(location := prev.location.(latitude := locationValue))
    case LongitudeInput =>
      var locationValue := parseFloat(value);
      prev.(location := prev.location.(longitude := locationValue))
    case NameInput => prev.(name := value)
    case DescriptionInput => prev.(description := value)
  }

  /** `handleReset`: the form data spelled out afresh and the message cleared; this is
      the initial state, whatever was entered before. */
  function HandleReset(state: FormState): (next: FormState)
    ensures next == InitialState
    ensures next.data.tags == [] && next.data.location == Location(0.0, 0.0)
  {
    FormState(SensorData("", "", [], Location(0.0, 0.0)), "")
  }

  /** The class of the status paragraph, or `None` when no message is shown. */
  function MessageClass(message: string): (cls: Option<string>)
    ensures cls.None? <==> message == ""
    ensures cls == Some("error-message") <==> message != "" && StartsWith(message, ErrorPrefix)
    ensures cls == Some("success-message") <==> message != "" && !StartsWith(message, ErrorPrefix)
  {
    if message == "" then None
    else if StartsWith(message, ErrorPrefix) then Some("error-message")
    else Some("success-message")
  }

  /** `s.startsWith(prefix)`. */
  predicate StartsWith(s: string, prefix: string)
  {
    |prefix| <= |s| && s[..|prefix|] == prefix
  }

  /** The end of `handleSubmit`, given whether the POST succeeded: the data is reset after
      a success and kept after a failure, and the message shown is classed accordingly. */
  function AfterSubmit(state: FormState, succeeded: bool): (next: FormState)
    ensures succeeded ==> next.data == InitialSensorData
    ensures !succeeded ==> next.data == state.data
    ensures MessageClass(next.message) == Some(if succeeded then "success-message" else "error-message")
  {
    if succeeded then
      assert SuccessMessage[0] != ErrorPrefix[0];
      FormState(InitialSensorData, SuccessMessage)
    else
      state.(message := FailureMessage)
  }
}
