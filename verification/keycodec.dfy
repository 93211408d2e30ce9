/** The key codec of `service/channel.go`: it turns a channel's raw key blob
    into an ordered key list and an encoding label, and redacts one key for
    display. JSON decoding is the standard library's and is taken as
    parameters. */
module KeyCodec {

  import opened Wrappers
  import opened Text
  import opened ChannelTypes

  /** The codec's two `json.Unmarshal` calls. They decode into different Go
      targets, so they may disagree on one text: `decodesAsValue` is the
      decode into `interface{}` that labels a blob, and `decodeArray` the
      decode into `[]json.RawMessage` that lists its keys, giving each
      element's raw JSON text in order, or `None` when it fails. */
  datatype JsonDecoder = JsonDecoder(decodesAsValue: string -> bool, decodeArray: string -> Option<seq<string>>)

  const Redacted: string := "***"

  /** `MaskKey`: keys of at most 7 bytes are fully redacted; longer keys keep
      their first 3 and last 4 bytes around the redaction marker. */
  function MaskKey(key: string): (r: string)
    ensures |key| <= 7 <==> r == Redacted
    ensures |key| <= 7 ==> |r| == 3
    ensures |key| > 7 ==> |r| == 10 && r[..3] == key[..3] && r[3..6] == Redacted
                          && r[6..] == key[|key| - 4..]
  {
    if |key| <= 7 then Redacted else key[..3] + Redacted + key[|key| - 4..]
  }

  /** The masked form reveals nothing from positions 3 to len-5: two keys
      that agree outside that window mask identically. */
  lemma MaskHidesInterior(k1: string, k2: string)
    requires |k1| > 7 && |k2| > 7
    requires k1[..3] == k2[..3] && k1[|k1| - 4..] == k2[|k2| - 4..]
    ensures MaskKey(k1) == MaskKey(k2)
  {
  }

  /** A key as the line path yields it: non-empty, trimmed, one line. */
  predicate IsLineKey(x: string) {
    x != [] && NoEdgeSpace(x) && '\n' !in x
  }

  predicate NoNewlines(xs: seq<string>) {
    forall k :: 0 <= k < |xs| ==> '\n' !in xs[k]
  }

  /** The line path of `ParseKeys`: trim newlines at both ends, split on
      newline, trim each line and drop the blank ones. */
  function LineKeys(key: string): (r: seq<string>)
    ensures forall k :: 0 <= k < |r| ==> IsLineKey(r[k])
  {
    var pieces := SplitOn(TrimChar(key, '\n'), '\n');
    CleanLines(pieces)
  }

  /** A key the line path may emit: non-empty and trimmed. */
  predicate CleanKey(x: string) {
    x != [] && NoEdgeSpace(x)
  }

  predicate AllClean(xs: seq<string>) {
    forall k :: 0 <= k < |xs| ==> CleanKey(xs[k])
  }

  /** Trim every piece and keep the non-blank results, in order. */
  function CleanLines(pieces: seq<string>): (r: seq<string>)
    ensures |r| <= |pieces|
    ensures AllClean(r)
    ensures NoNewlines(pieces) ==> NoNewlines(r)
  {
    if pieces == [] then []
    else
      var t := TrimSpace(pieces[0]);
      var head := if t == [] then [] else [t];
      var rest := CleanLines(pieces[1..]);
      CleanAppend(head, rest);
      NoNewlinesTail(pieces);
      head + rest
  }

  lemma CleanAppend(a: seq<string>, b: seq<string>)
    requires AllClean(a) && AllClean(b)
    ensures AllClean(a + b)
    ensures NoNewlines(a) && NoNewlines(b) ==> NoNewlines(a + b)
  {
  }

  lemma NoNewlinesTail(pieces: seq<string>)
    requires pieces != []
    ensures NoNewlines(pieces) ==> NoNewlines(pieces[1..]) && '\n' !in TrimSpace(pieces[0])
  {
    if NoNewlines(pieces) {
      assert '\n' !in pieces[0];
      TrimSpaceKeepsOut(pieces[0], '\n');
      assert forall k :: 0 <= k < |pieces| - 1 ==> pieces[1..][k] == pieces[k + 1];
    }
  }

  /** Cleaning distributes over concatenation, so it keeps input order. */
  lemma {:induction false} CleanLinesConcat(a: seq<string>, b: seq<string>)
    ensures CleanLines(a + b) == CleanLines(a) + CleanLines(b)
    decreases |a|
  {
    if a != [] {
      var t := TrimSpace(a[0]);
      var head := if t == [] then [] else [t];
      assert CleanLines(a + b) == head + CleanLines(a[1..] + b) by {
        assert (a + b)[0] == a[0];
        assert (a + b)[1..] == a[1..] + b;
      }
      CleanLinesConcat(a[1..], b);
      assert CleanLines(a) == head + CleanLines(a[1..]);
    } else {
      assert a + b == b;
    }
  }

  /** The newline trim before splitting changes nothing: the empty pieces
      it removes would have been dropped as blank anyway. */
  lemma {:induction false} LineKeysIgnoreOuterNewlines(key: string)
    ensures LineKeys(key) == CleanLines(SplitOn(key, '\n'))
    decreases |key|
  {
    if |key| > 0 && key[0] == '\n' {
      assert key == [] + ['\n'] + key[1..];
      SplitConcat([], key[1..], '\n');
      CleanLinesConcat([[]], SplitOn(key[1..], '\n'));
      LineKeysIgnoreOuterNewlines(key[1..]);
    } else if |key| > 0 && key[|key| - 1] == '\n' {
      var front := key[..|key| - 1];
      assert key == front + ['\n'] + [];
      SplitConcat(front, [], '\n');
      CleanLinesConcat(SplitOn(front, '\n'), [[]]);
      LineKeysIgnoreOuterNewlines(front);
    }
  }

  /** Keys of a blob are the keys of its first line followed by the keys of
      the rest: the line path preserves order. */
  lemma LineKeysConcat(a: string, b: string)
    ensures LineKeys(a + "\n" + b) == LineKeys(a) + LineKeys(b)
  {
    LineKeysIgnoreOuterNewlines(a + "\n" + b);
    LineKeysIgnoreOuterNewlines(a);
    LineKeysIgnoreOuterNewlines(b);
    SplitConcat(a, b, '\n');
    CleanLinesConcat(SplitOn(a, '\n'), SplitOn(b, '\n'));
  }

  /** A blob without a newline is one key, its trimmed text, unless blank. */
  lemma LineKeysOneLine(key: string)
    requires '\n' !in key
    ensures LineKeys(key) == (if TrimSpace(key) == [] then [] else [TrimSpace(key)])
  {
    LineKeysIgnoreOuterNewlines(key);
    assert SplitOn(key, '\n') == [key];
    assert [key][1..] == [];
  }

  /** `ParseKeys` takes the JSON path exactly when the trimmed blob starts
      with `[` and decodes as a JSON array. */
  predicate IsJsonArrayBlob(json: JsonDecoder, key: string) {
    var t := TrimSpace(key);
    HasPrefix(t, "[") && json.decodeArray(t).Some?
  }

  /** `ParseKeys`: the ordered key list of a raw key blob. It never fails: a
      blob that does not decode as a JSON array is read line by line. */
  function ParseKeys(json: JsonDecoder, key: string): (r: seq<string>)
    ensures key == "" ==> r == []
    ensures key != "" && IsJsonArrayBlob(json, key) ==>
              r == json.decodeArray(TrimSpace(key)).value
    ensures key != "" && !IsJsonArrayBlob(json, key) ==> r == LineKeys(key)
    ensures !IsJsonArrayBlob(json, key) ==> forall k :: 0 <= k < |r| ==> IsLineKey(r[k])
  {
    if key == "" then []
    else if IsJsonArrayBlob(json, key) then json.decodeArray(TrimSpace(key)).value
    else LineKeys(key)
  }

  /** `DetectKeyType`: JSON when the trimmed blob starts with `[` or `{` and
      decodes; otherwise multi-line iff the raw blob holds a newline. */
  function DetectKeyType(json: JsonDecoder, key: string): (r: KeyType)
    ensures key == "" ==> r == Single
    ensures r == MultiJson <==>
              var t := TrimSpace(key);
              (HasPrefix(t, "[") || HasPrefix(t, "{")) && json.decodesAsValue(t)
    ensures r != MultiJson ==> (r == MultiLine <==> '\n' in key)
  {
    if key == "" then Single
    else
      var t := TrimSpace(key);
      if (HasPrefix(t, "[") || HasPrefix(t, "{")) && json.decodesAsValue(t) then MultiJson
      else if '\n' in key then MultiLine
      else Single
  }

  /** When the key list comes from a JSON array, the label says JSON exactly
      when the `interface{}` decode also accepts the trimmed blob. */
  lemma JsonKeysAreLabelledJson(json: JsonDecoder, key: string)
    requires key != "" && IsJsonArrayBlob(json, key)
    ensures DetectKeyType(json, key) == MultiJson <==> json.decodesAsValue(TrimSpace(key))
    ensures ParseKeys(json, key) == json.decodeArray(TrimSpace(key)).value
  {
  }

  /** A blob labelled single holds at most one key, its trimmed text, unless
      the two decodes disagree on it: then it is an array the label missed. */
  lemma SingleBlobHasAtMostOneKey(json: JsonDecoder, key: string)
    requires DetectKeyType(json, key) == Single
    ensures !IsJsonArrayBlob(json, key) ==>
              ParseKeys(json, key) == (if TrimSpace(key) == [] then [] else [TrimSpace(key)])
    ensures IsJsonArrayBlob(json, key) ==>
              !json.decodesAsValue(TrimSpace(key)) && ParseKeys(json, key) == json.decodeArray(TrimSpace(key)).value
  {
    if key != "" && !IsJsonArrayBlob(json, key) {
      LineKeysOneLine(key);
    }
  }

  /** A one-line array blob that the `[]json.RawMessage` decode accepts but
      the `interface{}` decode rejects (Go's `[1e400,2]`, whose number
      overflows a float64) is labelled single yet lists the array's elements. */
  lemma DisagreeingDecodes(json: JsonDecoder, key: string)
    requires key != [] && key[0] == '[' && NoEdgeSpace(key) && '\n' !in key
    requires json.decodeArray(key).Some? && !json.decodesAsValue(key)
    ensures DetectKeyType(json, key) == Single
    ensures ParseKeys(json, key) == json.decodeArray(key).value
  {
    assert TrimSpace(key) == key;
    assert HasPrefix(key, "[") && !HasPrefix(key, "{");
  }

  /** Off the JSON path the key list is the line path's: both for a blob
      whose trimmed text does not start with `[`, and for one that does but
      does not decode as a JSON array. */
  lemma LinePathWhenNotArray(json: JsonDecoder, key: string)
    requires !IsJsonArrayBlob(json, key)
    ensures ParseKeys(json, key) == LineKeys(key)
  {
    if key == "" {
      var blank: seq<string> := [[]];
      assert SplitOn(TrimChar(key, '\n'), '\n') == blank;
      assert CleanLines(blank) == [] by {
        assert TrimSpace([]) == [];
        assert blank[1..] == [];
      }
    }
  }

  /** A single-line key without whitespace at its ends is one key. */
  lemma BareValueIsOneKey(json: JsonDecoder, key: string)
    requires key != [] && NoEdgeSpace(key) && '\n' !in key && key[0] != '['
    ensures ParseKeys(json, key) == [key]
  {
    assert TrimSpace(key)[..1] != "[" by { assert TrimSpace(key) == key; }
    LinePathWhenNotArray(json, key);
    LineKeysOneLine(key);
  }

  /** The worked example of the line path, `"a\nb\n\nc"` giving
      `["a", "b", "c"]`, for any three one-byte keys: the blank line is
      dropped and the remaining lines keep their order. */
  lemma ParseKeysLinesExample(json: JsonDecoder, a: char, b: char, c: char)
    requires !IsSpace(a) && !IsSpace(b) && !IsSpace(c) && a != '['
    ensures ParseKeys(json, [a] + "\n" + [b] + "\n\n" + [c]) == [[a], [b], [c]]
  {
    var s := [a] + "\n" + [b] + "\n\n" + [c];
    assert TrimSpace(s) == s by { assert NoEdgeSpace(s); }
    assert s[..1] != "[";
    LinePathWhenNotArray(json, s);
    assert IsLineKey([a]) && IsLineKey([b]) && IsLineKey([c]);
    ThreeLines([a], [b], [c]);
  }

  /** Three one-key lines with a blank line before the last. */
  lemma ThreeLines(x: string, y: string, z: string)
    requires IsLineKey(x) && IsLineKey(y) && IsLineKey(z)
    ensures LineKeys(x + "\n" + y + "\n\n" + z) == [x, y, z]
  {
    OneLineKey(x);
    var tail := y + "\n" + ("\n" + z);
    LineThenBlankThenLine(y, z);
    LineKeysConcat(x, tail);
    Regroup(x, y, z);
  }

  lemma LineThenBlankThenLine(y: string, z: string)
    requires IsLineKey(y) && IsLineKey(z)
    ensures LineKeys(y + "\n" + ("\n" + z)) == [y, z]
  {
    OneLineKey(y);
    OneLineKey(z);
    BlankLineIgnored(z);
    LineKeysConcat(y, "\n" + z);
  }

  lemma Regroup(x: string, y: string, z: string)
    ensures x + "\n" + y + "\n\n" + z == x + "\n" + (y + "\n" + ("\n" + z))
  {
    var nl := "\n";
    assert "\n\n" == nl + nl;
  }

  /** A leading blank line contributes no key. */
  lemma BlankLineIgnored(y: string)
    ensures LineKeys("\n" + y) == LineKeys(y)
  {
    var blank: seq<string> := [[]];
    var s := "\n" + y;
    var pieces := SplitOn(y, '\n');
    assert LineKeys(s) == CleanLines(SplitOn(s, '\n')) by {
      LineKeysIgnoreOuterNewlines(s);
    }
    assert SplitOn(s, '\n') == blank + pieces by {
      assert s == [] + ['\n'] + y;
      SplitConcat([], y, '\n');
      assert SplitOn([], '\n') == blank;
    }
    assert CleanLines(blank + pieces) == CleanLines(pieces) by {
      CleanLinesConcat(blank, pieces);
      assert CleanLines(blank) == [];
    }
    LineKeysIgnoreOuterNewlines(y);
  }

  /** A trimmed, non-empty single line is its own only key. */
  lemma OneLineKey(x: string)
    requires IsLineKey(x)
    ensures LineKeys(x) == [x]
  {
    LineKeysOneLine(x);
  }

  /** A bare value is one key, and the empty blob has none. */
  lemma ParseKeysBareExample(json: JsonDecoder)
    ensures ParseKeys(json, "abc") == ["abc"]
    ensures ParseKeys(json, "") == []
  {
    BareValueIsOneKey(json, "abc");
  }

  /** A JSON array blob yields each element's raw text, quotes included; both
      decodes accept it, so it is labelled JSON. */
  lemma ParseKeysJsonExample(json: JsonDecoder)
    requires json.decodeArray("[\"a\",\"b\"]") == Some(["\"a\"", "\"b\""])
    requires json.decodesAsValue("[\"a\",\"b\"]")
    ensures ParseKeys(json, "[\"a\",\"b\"]") == ["\"a\"", "\"b\""]
    ensures DetectKeyType(json, "[\"a\",\"b\"]") == MultiJson
  {
    var s := "[\"a\",\"b\"]";
    assert s[0] == '[' && NoEdgeSpace(s);
    JsonBlob(json, s, ["\"a\"", "\"b\""]);
  }

  /** A trimmed blob that opens with `[` and decodes as an array yields the
      array's elements, and is labelled JSON exactly when the `interface{}`
      decode accepts it too. */
  lemma JsonBlob(json: JsonDecoder, s: string, elements: seq<string>)
    requires s != [] && s[0] == '[' && NoEdgeSpace(s)
    requires json.decodeArray(s) == Some(elements)
    ensures ParseKeys(json, s) == elements
    ensures DetectKeyType(json, s) == MultiJson <==> json.decodesAsValue(s)
  {
    assert TrimSpace(s) == s;
    assert HasPrefix(s, "[");
  }
}
