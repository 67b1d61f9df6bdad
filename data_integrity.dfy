/** The item validator of the API data-integrity suite (`validateApiItem`):
    an item is an object with non-empty string `index`, `name` and `url`,
    the url names the item under its endpoint, and neither index nor name
    is blank. */
module DataIntegrity {
  import opened Json

  /** ECMAScript white space and line terminators: what `String.prototype.trim` strips. */
  predicate IsJsWhitespace(c: char)
  {
    || c == '\U{9}' || c == '\U{A}' || c == '\U{B}' || c == '\U{C}' || c == '\U{D}' || c == ' '
    || c == '\U{A0}' || c == '\U{1680}' || ('\U{2000}' <= c <= '\U{200A}')
    || c == '\U{2028}' || c == '\U{2029}' || c == '\U{202F}' || c == '\U{205F}'
    || c == '\U{3000}' || c == '\U{FEFF}'
  }

  /** The string without its leading white space. */
  function TrimStart(s: string): (r: string)
    ensures |r| <= |s| && r == s[|s| - |r|..]
    ensures r != "" ==> !IsJsWhitespace(r[0])
    ensures forall i :: 0 <= i < |s| - |r| ==> IsJsWhitespace(s[i])
  {
    if |s| > 0 && IsJsWhitespace(s[0]) then TrimStart(s[1..]) else s
  }

  /** The string without its trailing white space. */
  function TrimEnd(s: string): (r: string)
    ensures |r| <= |s| && r == s[..|r|]
    ensures r != "" ==> !IsJsWhitespace(r[|r| - 1])
    ensures forall i :: |r| <= i < |s| ==> IsJsWhitespace(s[i])
  {
    if |s| > 0 && IsJsWhitespace(s[|s| - 1]) then TrimEnd(s[..|s| - 1]) else s
  }

  /** `s.trim()`. */
  function Trim(s: string): string
  {
    TrimEnd(TrimStart(s))
  }

  /** Every character is white space. */
  predicate Blank(s: string)
  {
    forall i :: 0 <= i < |s| ==> IsJsWhitespace(s[i])
  }

  /** A string trims to nothing exactly when it is all white space. */
  lemma TrimEmptyIffBlank(s: string)
    ensures Trim(s) == "" <==> Blank(s)
  {
    var t := TrimStart(s);
    if Trim(s) == "" {
      assert t == "";
    } else {
      var r := Trim(s);
      assert r[0] == t[0];
      assert t[0] == s[|s| - |t|];
    }
  }

  /** A character `[a-z-]` accepts. */
  predicate SlugChar(c: char)
  {
    ('a' <= c <= 'z') || c == '-'
  }

  /** What the url must start with for an endpoint. */
  function UrlPrefix(endpoint: string): string
  {
    "/api/2014/" + endpoint + "/"
  }

  /** `^/api/2014/<endpoint>/[a-z-]+$`, with the endpoint read literally. */
  function UrlMatches(url: string, endpoint: string): (r: bool)
    ensures r ==> var p := UrlPrefix(endpoint);
                  |url| > |p| && url[..|p|] == p && forall i :: |p| <= i < |url| ==> SlugChar(url[i])
  {
    var p := UrlPrefix(endpoint);
    |url| > |p| && url[..|p|] == p && AllSlug(url[|p|..])
  }

  /** Every character is in `[a-z-]`. */
  function AllSlug(s: string): (r: bool)
    ensures r <==> forall i :: 0 <= i < |s| ==> SlugChar(s[i])
  {
    if |s| == 0 then true else SlugChar(s[0]) && AllSlug(s[1..])
  }

  /** Any url built as prefix plus a non-empty `[a-z-]` tail matches. */
  lemma BuiltUrlMatches(endpoint: string, slug: string)
    requires slug != "" && forall i :: 0 <= i < |slug| ==> SlugChar(slug[i])
    ensures UrlMatches(UrlPrefix(endpoint) + slug, endpoint)
  {
    var p := UrlPrefix(endpoint);
    var url := p + slug;
    assert url[..|p|] == p;
    assert url[|p|..] == slug;
  }

  /** A url whose tail after the prefix holds any other character, or is
      empty, does not match. */
  lemma ForeignTailRejected(endpoint: string, slug: string, k: nat)
    requires k < |slug| && !SlugChar(slug[k])
    ensures !UrlMatches(UrlPrefix(endpoint) + slug, endpoint) && !UrlMatches(UrlPrefix(endpoint), endpoint)
  {
    var p := UrlPrefix(endpoint);
    assert (p + slug)[|p| + k] == slug[k];
  }

  /** The member `key` holds a non-empty string (`item.key` truthy and a string). */
  predicate NonEmptyString(item: Json, key: string)
  {
    HasMember(item, key) && item.fields[key].Str? && item.fields[key].s != ""
  }

  /** `validateApiItem(item, endpoint)`. */
  function ValidateApiItem(item: Json, endpoint: string): (ok: bool)
    ensures ok ==> item.Obj?
  {
    if !(item.Obj? || item.Arr?) then false
    else if !NonEmptyString(item, "index") then false
    else if !NonEmptyString(item, "name") then false
    else if !NonEmptyString(item, "url") then false
    else if !UrlMatches(item.fields["url"].s, endpoint) then false
    else if Trim(item.fields["index"].s) == "" || Trim(item.fields["name"].s) == "" then false
    else true
  }

  /** The member `key` holds a string with a character that is not white space. */
  predicate NonBlankString(item: Json, key: string)
  {
    HasMember(item, key) && item.fields[key].Str? && !Blank(item.fields[key].s)
  }

  /** The members pass the empty and trim checks exactly when they are non-blank. */
  lemma NonBlankIffChecks(item: Json, key: string)
    ensures NonBlankString(item, key) <==>
              NonEmptyString(item, key) && Trim(item.fields[key].s) != ""
  {
    if HasMember(item, key) && item.fields[key].Str? {
      TrimEmptyIffBlank(item.fields[key].s);
    }
  }

  /** The validator accepts exactly the objects whose index and name are
      strings with a non-blank character, and whose url is the prefix for the
      endpoint followed by a non-empty `[a-z-]` tail. */
  lemma ValidateCharacterized(item: Json, endpoint: string)
    ensures ValidateApiItem(item, endpoint) <==>
              && item.Obj?
              && NonBlankString(item, "index")
              && NonBlankString(item, "name")
              && HasMember(item, "url") && item.fields["url"].Str?
              && UrlMatches(item.fields["url"].s, endpoint)
  {
    NonBlankIffChecks(item, "index");
    NonBlankIffChecks(item, "name");
  }

  /** Values that are not objects are rejected, arrays included. */
  lemma NonObjectRejected(item: Json, endpoint: string)
    requires !item.Obj?
    ensures !ValidateApiItem(item, endpoint)
  {
  }

  /** A missing, empty or non-string field is rejected. */
  lemma MissingFieldRejected(item: Json, endpoint: string, key: string)
    requires key == "index" || key == "name" || key == "url"
    requires !NonEmptyString(item, key)
    ensures !ValidateApiItem(item, endpoint)
  {
  }

  /** A white-space-only index or name is rejected even though it is non-empty. */
  lemma BlankFieldRejected(item: Json, endpoint: string, key: string)
    requires key == "index" || key == "name"
    requires item.Obj? && HasMember(item, key) && item.fields[key].Str? && Blank(item.fields[key].s)
    ensures !ValidateApiItem(item, endpoint)
  {
    TrimEmptyIffBlank(item.fields[key].s);
  }

  /** An item built from a non-blank index and name and a well-formed url passes. */
  lemma WellFormedItemAccepted(endpoint: string, index: string, name: string, slug: string)
    requires !Blank(index) && !Blank(name)
    requires slug != "" && forall i :: 0 <= i < |slug| ==> SlugChar(slug[i])
    ensures ValidateApiItem(Obj(map["index" := Str(index), "name" := Str(name), "url" := Str(UrlPrefix(endpoint) + slug)]), endpoint)
  {
    var item := Obj(map["index" := Str(index), "name" := Str(name), "url" := Str(UrlPrefix(endpoint) + slug)]);
    BuiltUrlMatches(endpoint, slug);
    ValidateCharacterized(item, endpoint);
  }
}
