/**
  The `ContentTypeOf` action constraint: an action carrying it is selected
  only when the request's `Content-Type` header names the expected media
  type, compared ordinally and without regard to letter case.
*/
module ContentTypeOf {

  import opened Wrappers

  /** ASCII upper-casing of one character; every other character is left alone. */
  function ToUpperAscii(c: char): (u: char)
  {
    if 'a' <= c <= 'z' then (c as int - 32) as char else c
  }

  /** ASCII lower-casing of one character; every other character is left alone. */
  function ToLowerAscii(c: char): (l: char)
  {
    if 'A' <= c <= 'Z' then (c as int + 32) as char else c
  }

  /** The upper-cased form of a whole string, character by character. */
  function ToUpper(s: string): (u: string)
    ensures |u| == |s|
    ensures forall i :: 0 <= i < |s| ==> u[i] == ToUpperAscii(s[i])
  {
    seq(|s|, i requires 0 <= i < |s| => ToUpperAscii(s[i]))
  }

  /**
    Ordinal, case-insensitive string equality, walked character by
    character; it agrees with comparing the two upper-cased forms.
  */
  function EqualsOrdinalIgnoreCase(a: string, b: string): (r: bool)
    ensures r <==> ToUpper(a) == ToUpper(b)
  {
    if |a| != |b| then false
    else if |a| == 0 then true
    else
      assert ToUpper(a) == [ToUpperAscii(a[0])] + ToUpper(a[1..]);
      assert ToUpper(b) == [ToUpperAscii(b[0])] + ToUpper(b[1..]);
      ToUpperAscii(a[0]) == ToUpperAscii(b[0]) && EqualsOrdinalIgnoreCase(a[1..], b[1..])
  }

  class ContentTypeOf {

    /** The media type an action accepts; fixed when the attribute is built. */
    const expectedContentType: string

    /** The constraint's position among an action's constraints: always first. */
    const Order: int := 0

    constructor (expectedContentType: string)
      ensures this.expectedContentType == expectedContentType
      ensures Order == 0
    {
      this.expectedContentType := expectedContentType;
    }

    /**
      `contentType` is the request's `Content-Type` header, `None` when the
      request carries none.
    */
    function Accept(contentType: Option<string>): (r: bool)
      ensures contentType.None? ==> !r
      ensures contentType.Some? ==> (r <==> ToUpper(contentType.value) == ToUpper(expectedContentType))
    {
      match contentType
      case None => false
      case Some(header) => EqualsOrdinalIgnoreCase(header, expectedContentType)
    }
  }

  /** Comparing ignoring case does not depend on which side is the header. */
  lemma EqualsOrdinalIgnoreCaseSymmetric(a: string, b: string)
    ensures EqualsOrdinalIgnoreCase(a, b) == EqualsOrdinalIgnoreCase(b, a)
  {
  }

  /**
    A header that spells the expected type with any letters switched to
    upper or lower case, position by position, is accepted.
  */
  lemma CaseVariantAccepted(c: ContentTypeOf, header: string)
    requires |header| == |c.expectedContentType|
    requires forall i :: 0 <= i < |header| ==>
      header[i] == c.expectedContentType[i]
      || header[i] == ToUpperAscii(c.expectedContentType[i])
      || header[i] == ToLowerAscii(c.expectedContentType[i])
    ensures c.Accept(Some(header))
  {
    var e := c.expectedContentType;
    forall i | 0 <= i < |header|
      ensures ToUpper(header)[i] == ToUpper(e)[i]
    {
      assert ToUpperAscii(ToLowerAscii(e[i])) == ToUpperAscii(e[i]);
    }
    assert ToUpper(header) == ToUpper(e);
  }

  /** The header that repeats the expected type exactly is accepted. */
  lemma ExactHeaderAccepted(c: ContentTypeOf)
    ensures c.Accept(Some(c.expectedContentType))
  {
  }

  /** A header of a different length from the expected type is refused. */
  lemma DifferentLengthRefused(c: ContentTypeOf, header: string)
    requires |header| != |c.expectedContentType|
    ensures !c.Accept(Some(header))
  {
  }
}
