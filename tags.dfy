/**
 * Struct-tag parsing of the `human` encoder (tag.go).
 *
 * A tag is `<name>[,omitempty]` or the single character `-`; the name may
 * only hold letters, digits and `_`. Letters and digits are the ASCII ones.
 */
module Tags {
  import opened Wrappers

  const OmitEmptySuffix := ",omitempty"
  const InvalidTagPrefix := "Invalid tag: '"

  /** The error value built by newErrorInvalidTag: it remembers the raw tag. */
  datatype InvalidTag = InvalidTag(tag: string) {

    /** The message of the error, `Invalid tag: '<tag>'`. */
    function Error(): (msg: string)
      ensures |msg| == |InvalidTagPrefix| + |tag| + 1
      ensures msg[..|InvalidTagPrefix|] == InvalidTagPrefix
      ensures msg[|InvalidTagPrefix|..|msg| - 1] == tag
      ensures msg[|msg| - 1] == '\''
    {
      InvalidTagPrefix + tag + "'"
    }

    /** The raw tag the error was built from. */
    function Tag(): (t: string)
      ensures InvalidTag(t) == this
    {
      tag
    }
  }

  /** A Go `error` as far as IsInvalidTag can tell errors apart. */
  datatype GoError = InvalidTagError(invalid: InvalidTag) | OtherError(message: string)

  function NewErrorInvalidTag(tag: string): (e: GoError)
    ensures e.InvalidTagError? && e.invalid.Tag() == tag
  {
    InvalidTagError(InvalidTag(tag))
  }

  /** The type assertion `err.(*InvalidTag)`. */
  function IsInvalidTag(err: GoError): (r: (Option<InvalidTag>, bool))
    ensures r.1 <==> exists t :: err == NewErrorInvalidTag(t)
    ensures r.1 <==> r.0.Some?
    ensures r.1 ==> err == NewErrorInvalidTag(r.0.value.Tag())
  {
    match err
    case InvalidTagError(it) =>
      assert err == NewErrorInvalidTag(it.tag);
      (Some(it), true)
    case OtherError(_) => (None, false)
  }

  /** Two InvalidTag errors with the same message carry the same tag. */
  lemma ErrorDeterminesTag(a: InvalidTag, b: InvalidTag)
    requires a.Error() == b.Error()
    ensures a == b
  {
    var m := a.Error();
    assert a.tag == m[|InvalidTagPrefix|..|m| - 1];
    assert b.tag == m[|InvalidTagPrefix|..|m| - 1];
  }

  predicate IsAsciiLetter(c: char) { ('a' <= c <= 'z') || ('A' <= c <= 'Z') }

  predicate IsAsciiDigit(c: char) { '0' <= c <= '9' }

  predicate IsAsciiUpper(c: char) { 'A' <= c <= 'Z' }

  /** A character the tag's name may contain. */
  predicate IsNameChar(c: char) { c == '_' || IsAsciiLetter(c) || IsAsciiDigit(c) }

  /** The rune loop of ParseTag: true when no character is rejected. */
  predicate AllNameChars(s: string)
  {
    forall i :: 0 <= i < |s| ==> IsNameChar(s[i])
  }

  predicate HasSuffix(s: string, suffix: string)
  {
    |suffix| <= |s| && s[|s| - |suffix|..] == suffix
  }

  function TrimSuffix(s: string, suffix: string): (r: string)
    ensures HasSuffix(s, suffix) ==> r + suffix == s
    ensures !HasSuffix(s, suffix) ==> r == s
  {
    if HasSuffix(s, suffix) then s[..|s| - |suffix|] else s
  }

  /** The result triple of ParseTag: the name, the omitempty flag and the error. */
  datatype ParsedTag = ParsedTag(name: string, omitEmpty: bool, err: Option<InvalidTag>)

  function ParseTag(tag: string): (r: ParsedTag)
    ensures tag == "-" ==> r == ParsedTag("-", false, None)
    ensures tag != "-" ==> (r.omitEmpty <==> HasSuffix(tag, OmitEmptySuffix))
    ensures tag != "-" ==> tag == r.name + (if r.omitEmpty then OmitEmptySuffix else "")
    ensures tag != "-" ==>
      (r.err.Some? <==> exists i :: 0 <= i < |r.name| && !IsNameChar(r.name[i]))
    ensures r.err.Some? ==> r.err.value == InvalidTag(tag)
  {
    if tag == "-" then ParsedTag(tag, false, None)
    else
      var omitEmpty := HasSuffix(tag, OmitEmptySuffix);
      var name := TrimSuffix(tag, OmitEmptySuffix);
      ParsedTag(name, omitEmpty, if AllNameChars(name) then None else Some(InvalidTag(tag)))
  }

  /** The tag a field would carry for a given display name and flag. */
  function FormatTag(name: string, omitEmpty: bool): string
  {
    name + (if omitEmpty then OmitEmptySuffix else "")
  }

  /** Every well-formed tag parses back to the name and flag it was written from. */
  lemma ParseFormatTag(name: string, omitEmpty: bool)
    requires forall i :: 0 <= i < |name| ==> IsNameChar(name[i])
    ensures ParseTag(FormatTag(name, omitEmpty)) == ParsedTag(name, omitEmpty, None)
  {
    var tag := FormatTag(name, omitEmpty);
    assert tag != "-" by {
      if omitEmpty {
        assert |tag| == |name| + |OmitEmptySuffix|;
      } else if |name| == 1 {
        assert tag == name && IsNameChar(tag[0]);
      }
    }
    if omitEmpty {
      assert tag[|tag| - |OmitEmptySuffix|..] == OmitEmptySuffix;
    } else {
      assert tag == name;
      assert !HasSuffix(tag, OmitEmptySuffix) by {
        if |OmitEmptySuffix| <= |tag| {
          var k := |tag| - |OmitEmptySuffix|;
          assert IsNameChar(tag[k]) && OmitEmptySuffix[0] == ',';
          assert tag[k..][0] != OmitEmptySuffix[0];
        }
      }
    }
  }

  /** The value of `tagName` in a field's struct tag, "" when it has none. */
  function TagValue(tags: map<string, string>, tagName: string): string
  {
    if tagName in tags then tags[tagName] else ""
  }

  /**
   * parseTagFromStructField: parse the field's tag and fall back to the
   * field's Go name when the tag gives no name.
   */
  function ParseTagFromStructField(goName: string, tags: map<string, string>, tagName: string): (r: ParsedTag)
    ensures goName != "" ==> r.name != ""
    ensures ParseTag(TagValue(tags, tagName)).name != "" ==> r.name == ParseTag(TagValue(tags, tagName)).name
    ensures ParseTag(TagValue(tags, tagName)).name == "" ==> r.name == goName
    ensures r.omitEmpty == ParseTag(TagValue(tags, tagName)).omitEmpty
    ensures r.err == ParseTag(TagValue(tags, tagName)).err
  {
    var p := ParseTag(TagValue(tags, tagName));
    if p.name == "" then p.(name := goName) else p
  }

  /** An absent, empty or bare `,omitempty` tag keeps the Go name and parses without error. */
  lemma EmptyTagUsesGoName(goName: string, tags: map<string, string>, tagName: string)
    requires TagValue(tags, tagName) in {"", OmitEmptySuffix}
    ensures ParseTagFromStructField(goName, tags, tagName)
         == ParsedTag(goName, TagValue(tags, tagName) == OmitEmptySuffix, None)
  {
    if TagValue(tags, tagName) == OmitEmptySuffix {
      ParseFormatTag("", true);
    } else {
      ParseFormatTag("", false);
    }
  }
}
