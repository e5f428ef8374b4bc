/** Tagged image references: the parser, the canonical text and the tag-change check
    of cloudhelm/image_reference.py. */
module ImageReference {
  import opened Wrappers

  datatype TaggedImage = TaggedImage(repository: string, tag: string)

  datatype ParseError =
    | BadLength | DigestNotSupported | BlankOrControl | MissingTag | BadRepository | NotLowercase | BadTag

  datatype ChangeError = Unparsable(error: ParseError) | OtherRepository | SameTag

  const MAX_LENGTH := 512

  // ---------------------------------------------------------------- text helpers

  /** Python's `str.isspace` for one character. */
  predicate IsSpace(c: char) {
    var n := c as int;
    || 9 <= n <= 13 || 28 <= n <= 32 || n == 133 || n == 160 || n == 5760 || 8192 <= n <= 8202
    || n == 8232 || n == 8233 || n == 8239 || n == 8287 || n == 12288
  }

  function StripLeft(s: string): string {
    if s != "" && IsSpace(s[0]) then StripLeft(s[1..]) else s
  }

  function StripRight(s: string): string {
    if s != "" && IsSpace(s[|s| - 1]) then StripRight(s[..|s| - 1]) else s
  }

  function Strip(s: string): string { StripRight(StripLeft(s)) }

  function LowerChar(c: char): char {
    if 'A' <= c <= 'Z' then ((c as int) + 32) as char else c
  }

  /** ASCII lower-casing: the patterns below refuse every other character anyway. */
  function ToLower(s: string): (r: string)
    ensures |r| == |s|
    ensures forall i :: 0 <= i < |s| ==> r[i] == LowerChar(s[i])
  {
    seq(|s|, i requires 0 <= i < |s| => LowerChar(s[i]))
  }

  function RFind(s: string, c: char): (r: int)
    ensures -1 <= r < |s|
    ensures 0 <= r ==> s[r] == c
    ensures forall i :: r < i < |s| ==> s[i] != c
  {
    if s == "" then -1
    else if s[|s| - 1] == c then |s| - 1
    else RFind(s[..|s| - 1], c)
  }

  function Split(s: string): (parts: seq<string>)
    ensures |parts| >= 1
  {
    if s == "" then [""]
    else
      var rest := Split(s[1..]);
      if s[0] == '/' then [""] + rest else [[s[0]] + rest[0]] + rest[1..]
  }

  function Join(parts: seq<string>): string
    requires |parts| >= 1
  {
    if |parts| == 1 then parts[0] else parts[0] + "/" + Join(parts[1..])
  }

  // ---------------------------------------------------------------- the patterns

  predicate IsDigit(c: char) { '0' <= c <= '9' }

  predicate IsLowerAlnum(c: char) { 'a' <= c <= 'z' || IsDigit(c) }

  predicate IsTagChar(c: char) { IsLowerAlnum(c) || 'A' <= c <= 'Z' || c in "_.-" }

  predicate TagPattern(t: string) {
    && 1 <= |t| <= 128
    && t[0] !in ".-"
    && forall i :: 0 <= i < |t| ==> IsTagChar(t[i])
  }

  /** Alphanumeric runs joined by `.`, `_`, `__` or a run of `-`: two neighbouring
      separators are equal and not dots, and no three underscores stand together. */
  predicate PathComponent(p: string) {
    && p != ""
    && IsLowerAlnum(p[0]) && IsLowerAlnum(p[|p| - 1])
    && (forall i :: 0 <= i < |p| ==> IsLowerAlnum(p[i]) || p[i] in "._-")
    && (forall i :: 0 <= i < |p| - 1 && !IsLowerAlnum(p[i]) && !IsLowerAlnum(p[i + 1])
          ==> p[i] == p[i + 1] != '.')
    && (forall i :: 0 <= i < |p| - 2 && p[i] == '_' && p[i + 1] == '_' ==> p[i + 2] != '_')
  }

  predicate RegistryHost(h: string) {
    && h != ""
    && IsLowerAlnum(h[0]) && IsLowerAlnum(h[|h| - 1])
    && forall i :: 0 <= i < |h| ==> IsLowerAlnum(h[i]) || h[i] in ".-"
  }

  predicate RegistryPattern(r: string) {
    var colon := RFind(r, ':');
    if colon < 0 then RegistryHost(r)
    else
      && RegistryHost(r[..colon])
      && 1 <= |r[colon + 1..]| <= 5
      && forall i :: colon < i < |r| ==> IsDigit(r[i])
  }

  predicate LooksLikeRegistry(first: string) {
    '.' in first || ':' in first || first == "localhost"
  }

  // ---------------------------------------------------------------- parsing and printing

  function PathOf(parts: seq<string>): seq<string>
    requires |parts| >= 1
  {
    if LooksLikeRegistry(parts[0]) then parts[1..] else parts
  }

  predicate RepositoryParts(parts: seq<string>) {
    && |parts| >= 1
    && (LooksLikeRegistry(parts[0]) ==> RegistryPattern(parts[0]))
    && PathOf(parts) != []
    && forall p :: p in PathOf(parts) ==> PathComponent(p)
  }

  function ParseTaggedImage(raw: string): Result<TaggedImage, ParseError> {
    var value := Strip(raw);
    if value == "" || |value| > MAX_LENGTH then Failure(BadLength)
    else if '@' in value then Failure(DigestNotSupported)
    else if exists c :: c in value && (IsSpace(c) || c as int < 32) then Failure(BlankOrControl)
    else
      var colon := RFind(value, ':');
      if colon <= RFind(value, '/') then Failure(MissingTag)
      else
        var repository, tag := value[..colon], value[colon + 1..];
        if repository == "" || repository[0] == '/' || repository[|repository| - 1] == '/' then
          Failure(BadRepository)
        else if repository != ToLower(repository) then Failure(NotLowercase)
        else if !RepositoryParts(Split(repository)) then Failure(BadRepository)
        else if !TagPattern(tag) then Failure(BadTag)
        else Success(TaggedImage(repository, tag))
  }

  const DOCKER_HUB := "docker.io"

  function Registry(first: string): string {
    if !LooksLikeRegistry(first) || first in ["index.docker.io", "registry-1.docker.io"] then DOCKER_HUB
    else first
  }

  function CanonicalParts(parts: seq<string>): (r: seq<string>)
    requires |parts| >= 1
    ensures |r| >= 1
  {
    var registry, path := Registry(parts[0]), PathOf(parts);
    if registry == DOCKER_HUB && |path| == 1 then [registry, "library"] + path else [registry] + path
  }

  function CanonicalRepository(image: TaggedImage): string {
    Join(CanonicalParts(Split(ToLower(image.repository))))
  }

  function CanonicalText(image: TaggedImage): string {
    CanonicalRepository(image) + ":" + image.tag
  }

  /** The canonical text of an accepted reference, or nothing when it does not parse. */
  function Canonical(raw: string): Option<string> {
    match ParseTaggedImage(raw)
    case Success(image) => Some(CanonicalText(image))
    case Failure(_) => None
  }

  // The next two predicates speak of any reading equal to the text: a proof unfolds the parser
  // only for a text whose `Canonical` it mentions.

  /** A text that is its own canonical form. */
  ghost predicate IsCanonical(text: string) {
    forall read :: read == text ==> Canonical(read) == Some(text)
  }

  /** A text that is read back as itself, if it can be read at all. */
  ghost predicate ReadsBack(text: string) {
    forall read :: read == text && Canonical(read).Some? ==> Canonical(read) == Some(text)
  }

  function RepositoryOf(raw: string): Option<string> {
    match ParseTaggedImage(raw)
    case Success(image) => Some(CanonicalRepository(image))
    case Failure(_) => None
  }

  /** `_image_matches` and `_same_image`: both parse, to the same canonical text. */
  predicate SameImage(left: string, right: string) {
    Canonical(left).Some? && Canonical(left) == Canonical(right)
  }

  function ValidateTagChange(current: string, target: string)
    : Result<(TaggedImage, TaggedImage), ChangeError>
  {
    match ParseTaggedImage(current)
    case Failure(e) => Failure(Unparsable(e))
    case Success(a) =>
      match ParseTaggedImage(target)
      case Failure(e) => Failure(Unparsable(e))
      case Success(b) =>
        if CanonicalRepository(a) != CanonicalRepository(b) then Failure(OtherRepository)
        else if a.tag == b.tag then Failure(SameTag)
        else Success((a, b))
  }

  // ---------------------------------------------------------------- text lemmas

  predicate NoSlash(p: string) { forall i :: 0 <= i < |p| ==> p[i] != '/' }

  lemma SplitOne(p: string)
    requires NoSlash(p)
    ensures Split(p) == [p]
  {
    if p != "" {
      SplitOne(p[1..]);
      assert p == [p[0]] + p[1..];
    }
  }

  lemma SplitCons(p: string, rest: string)
    requires NoSlash(p)
    ensures Split(p + "/" + rest) == [p] + Split(rest)
  {
    var s := p + "/" + rest;
    if p == "" {
      assert s[1..] == rest;
    } else {
      assert s[1..] == p[1..] + "/" + rest;
      SplitCons(p[1..], rest);
      assert p == [p[0]] + p[1..];
    }
  }

  lemma SplitJoin(parts: seq<string>)
    requires |parts| >= 1 && forall p :: p in parts ==> NoSlash(p)
    ensures Split(Join(parts)) == parts
  {
    if |parts| == 1 {
      SplitOne(parts[0]);
    } else {
      SplitJoin(parts[1..]);
      SplitCons(parts[0], Join(parts[1..]));
    }
  }

  /** Joining keeps any property of characters that `/` and every part have. */
  lemma JoinChars(parts: seq<string>, ok: char -> bool)
    requires |parts| >= 1 && ok('/')
    requires forall p :: p in parts ==> forall i :: 0 <= i < |p| ==> ok(p[i])
    ensures forall i :: 0 <= i < |Join(parts)| ==> ok(Join(parts)[i])
  {
    if |parts| > 1 {
      JoinChars(parts[1..], ok);
    }
  }

  lemma JoinEnds(parts: seq<string>)
    requires |parts| >= 1 && forall p :: p in parts ==> p != "" && p[0] != '/' && p[|p| - 1] != '/'
    ensures Join(parts) != "" && Join(parts)[0] != '/' && Join(parts)[|Join(parts)| - 1] != '/'
  {
    if |parts| > 1 {
      JoinEnds(parts[1..]);
    }
  }

  lemma RFindIs(s: string, c: char, r: int)
    requires -1 <= r < |s| && (0 <= r ==> s[r] == c) && forall i :: r < i < |s| ==> s[i] != c
    ensures RFind(s, c) == r
  {}

  lemma StripIdentity(s: string)
    requires s != "" && !IsSpace(s[0]) && !IsSpace(s[|s| - 1])
    ensures Strip(s) == s
  {}

  // ---------------------------------------------------------------- canonical references

  predicate RepositoryChar(c: char) { IsLowerAlnum(c) || c in "._-:/" }

  lemma RegistryChars(first: string)
    requires RegistryPattern(first)
    ensures first != "" && IsLowerAlnum(first[0]) && IsLowerAlnum(first[|first| - 1])
    ensures forall i :: 0 <= i < |first| ==> RepositoryChar(first[i]) && first[i] != '/'
  {
    var colon := RFind(first, ':');
    if 0 <= colon {
      assert first == first[..colon] + ":" + first[colon + 1..];
      forall i | 0 <= i < |first| ensures RepositoryChar(first[i]) && first[i] != '/' {
        if i < colon { assert first[i] == first[..colon][i]; }
      }
    }
  }

  lemma HubConstants()
    ensures RegistryPattern(DOCKER_HUB) && LooksLikeRegistry(DOCKER_HUB)
  {
    RFindIs(DOCKER_HUB, ':', -1);
    assert DOCKER_HUB[6] == '.';
  }

  /** The registry and path of an accepted repository are again accepted, and canonical
      parts are a fixed point. */
  lemma CanonicalPartsFixed(parts: seq<string>)
    requires RepositoryParts(parts)
    ensures var q := CanonicalParts(parts);
      RepositoryParts(q) && CanonicalParts(q) == q && LooksLikeRegistry(q[0])
  {
    var q := CanonicalParts(parts);
    var path := q[1..];
    assert q == [Registry(parts[0])] + path;
    RegistryFixed(parts[0], Registry(parts[0]));
    CanonicalPath(parts);
    CanonicalFromParts(q, Registry(parts[0]), path);
  }

  lemma CanonicalPath(parts: seq<string>)
    requires RepositoryParts(parts)
    ensures var q := CanonicalParts(parts);
      && q[1..] != [] && (forall p :: p in q[1..] ==> PathComponent(p))
      && (q[0] == DOCKER_HUB ==> |q| >= 3)
  {
    LibraryComponent();
    var q, path := CanonicalParts(parts), PathOf(parts);
    assert q[1..] == path || q[1..] == ["library"] + path;
  }

  lemma LibraryComponent()
    ensures PathComponent("library")
  {}

  lemma RegistryFixed(first: string, registry: string)
    requires LooksLikeRegistry(first) ==> RegistryPattern(first)
    requires registry == Registry(first)
    ensures LooksLikeRegistry(registry) && RegistryPattern(registry) && Registry(registry) == registry
  {
    HubConstants();
  }

  lemma CanonicalFromParts(q: seq<string>, registry: string, path: seq<string>)
    requires q == [registry] + path && path != [] && forall p :: p in path ==> PathComponent(p)
    requires LooksLikeRegistry(registry) && RegistryPattern(registry) && Registry(registry) == registry
    requires registry == DOCKER_HUB ==> |path| >= 2
    ensures RepositoryParts(q) && CanonicalParts(q) == q
  {
    assert PathOf(q) == path;
  }

  /** Every character of a canonical repository is a repository character, both ends are
      alphanumeric, and splitting it gives its parts back. */
  lemma CanonicalRepositoryShape(q: seq<string>)
    requires RepositoryParts(q) && LooksLikeRegistry(q[0])
    ensures var repo := Join(q);
      && repo != "" && IsLowerAlnum(repo[0]) && repo[|repo| - 1] != '/'
      && (forall i :: 0 <= i < |repo| ==> RepositoryChar(repo[i]))
      && Split(repo) == q
  {
    RegistryChars(q[0]);
    assert PathOf(q) == q[1..];
    forall p | p in q
      ensures p != "" && IsLowerAlnum(p[0]) && IsLowerAlnum(p[|p| - 1]) && NoSlash(p)
      ensures forall i :: 0 <= i < |p| ==> RepositoryChar(p[i])
    {
      if p != q[0] { assert p in PathOf(q); }
    }
    JoinChars(q, RepositoryChar);
    JoinEnds(q);
    SplitJoin(q);
  }

  lemma ToLowerIdentity(s: string)
    requires forall i :: 0 <= i < |s| ==> !('A' <= s[i] <= 'Z')
    ensures ToLower(s) == s
  {}

  /** What acceptance says about the pieces. */
  lemma AcceptedPieces(raw: string)
    requires ParseTaggedImage(raw).Success?
    ensures var image := ParseTaggedImage(raw).value;
      && ToLower(image.repository) == image.repository
      && RepositoryParts(Split(image.repository)) && TagPattern(image.tag)
  {}

  /** Parsing a text that is visibly a lower-case repository, a colon and a tag. */
  lemma ParseText(text: string, colon: nat)
    requires 0 < colon < |text| <= MAX_LENGTH && text[colon] == ':'
    requires IsLowerAlnum(text[0]) && text[colon - 1] != '/'
    requires forall i :: 0 <= i < colon ==> RepositoryChar(text[i])
    requires RepositoryParts(Split(text[..colon])) && TagPattern(text[colon + 1..])
    ensures ParseTaggedImage(text) == Success(TaggedImage(text[..colon], text[colon + 1..]))
  {
    hide RepositoryParts, Strip, Split, ToLower;
    var repository, tag := text[..colon], text[colon + 1..];
    forall i | 0 <= i < |text| ensures RepositoryChar(text[i]) || IsTagChar(text[i]) {
      if i > colon { assert text[i] == tag[i - colon - 1]; }
    }
    assert IsTagChar(text[|text| - 1]) by { assert text[|text| - 1] == tag[|tag| - 1]; }
    StripIdentity(text);
    ColonLast(text, colon);
    ToLowerIdentity(repository);
  }

  /** A canonical text parses exactly when it fits the length limit, and then to itself. */
  lemma CanonicalRoundTrip(raw: string)
    requires ParseTaggedImage(raw).Success?
    ensures var image := ParseTaggedImage(raw).value;
      var text := CanonicalText(image);
      && (ParseTaggedImage(text).Success? <==> |text| <= MAX_LENGTH)
      && (|text| <= MAX_LENGTH ==>
            && ParseTaggedImage(text).value == TaggedImage(CanonicalRepository(image), image.tag)
            && CanonicalText(ParseTaggedImage(text).value) == text)
  {
    var image := ParseTaggedImage(raw).value;
    AcceptedPieces(raw);
    var q := CanonicalParts(Split(image.repository));
    CanonicalPartsFixed(Split(image.repository));
    CanonicalRepositoryShape(q);
    CanonicalFits(q, image.tag, CanonicalText(image));
  }

  lemma CanonicalFits(q: seq<string>, tag: string, text: string)
    requires RepositoryParts(q) && CanonicalParts(q) == q && LooksLikeRegistry(q[0]) && TagPattern(tag)
    requires text == Join(q) + ":" + tag
    ensures ParseTaggedImage(text).Success? <==> |text| <= MAX_LENGTH
    ensures |text| <= MAX_LENGTH ==>
      && ParseTaggedImage(text) == Success(TaggedImage(Join(q), tag))
      && CanonicalText(TaggedImage(Join(q), tag)) == text
  {
    CanonicalRepositoryShape(q);
    TextFits(Join(q), q, tag, text);
    FixedText(q, tag);
  }

  lemma TextFits(repo: string, q: seq<string>, tag: string, text: string)
    requires repo != "" && IsLowerAlnum(repo[0]) && repo[|repo| - 1] != '/' && TagPattern(tag)
    requires forall i :: 0 <= i < |repo| ==> RepositoryChar(repo[i])
    requires text == repo + ":" + tag && Split(repo) == q && RepositoryParts(q)
    ensures ParseTaggedImage(text) ==
      if |text| <= MAX_LENGTH then Success(TaggedImage(repo, tag)) else Failure(BadLength)
  {
    hide ParseTaggedImage, RepositoryParts, TagPattern, RepositoryChar, IsLowerAlnum, IsSpace;
    var colon := |repo|;
    if |text| <= MAX_LENGTH {
      assert text[..colon] == repo;
      assert text[colon + 1..] == tag;
      assert text[colon - 1] == repo[colon - 1];
      ParseText(text, colon);
    } else {
      LastChar(repo, tag, text);
      TooLong(text);
    }
  }

  lemma LastChar(repo: string, tag: string, text: string)
    requires repo != "" && IsLowerAlnum(repo[0]) && TagPattern(tag) && text == repo + ":" + tag
    ensures !IsSpace(text[0]) && !IsSpace(text[|text| - 1])
  {
    assert IsTagChar(tag[|tag| - 1]);
    assert text[|text| - 1] == tag[|tag| - 1];
  }

  lemma FixedText(q: seq<string>, tag: string)
    requires |q| >= 1 && CanonicalParts(q) == q && Split(Join(q)) == q
    requires forall i :: 0 <= i < |Join(q)| ==> RepositoryChar(Join(q)[i])
    ensures CanonicalText(TaggedImage(Join(q), tag)) == Join(q) + ":" + tag
  {
    ToLowerIdentity(Join(q));
  }

  lemma TooLong(text: string)
    requires |text| > MAX_LENGTH && !IsSpace(text[0]) && !IsSpace(text[|text| - 1])
    ensures ParseTaggedImage(text) == Failure(BadLength)
  {
    StripIdentity(text);
  }

  /** Canonicalising twice changes nothing: the image a release stores is a fixed point. */
  lemma CanonicalIdempotent(raw: string)
    requires Canonical(raw).Some?
    ensures Canonical(Canonical(raw).value) ==
      if |Canonical(raw).value| <= MAX_LENGTH then Canonical(raw) else None
  {
    CanonicalRoundTrip(raw);
  }

  /** Canonical texts agree exactly when canonical repository and tag both agree. */
  lemma CanonicalTextInjective(left: string, right: string)
    requires ParseTaggedImage(left).Success? && ParseTaggedImage(right).Success?
    ensures var a, b := ParseTaggedImage(left).value, ParseTaggedImage(right).value;
      CanonicalText(a) == CanonicalText(b) <==>
        CanonicalRepository(a) == CanonicalRepository(b) && a.tag == b.tag
  {
    hide ParseTaggedImage, CanonicalRepository, RepositoryParts, TagPattern, ToLower, Split;
    var a, b := ParseTaggedImage(left).value, ParseTaggedImage(right).value;
    AcceptedPieces(left);
    AcceptedPieces(right);
    var x, y := CanonicalText(a), CanonicalText(b);
    var m, n := |CanonicalRepository(a)|, |CanonicalRepository(b)|;
    assert x[m] == ':' && x[m + 1..] == a.tag && x[..m] == CanonicalRepository(a);
    assert y[n] == ':' && y[n + 1..] == b.tag && y[..n] == CanonicalRepository(b);
    if x == y {
      ColonLast(x, m);
      ColonLast(y, n);
    }
  }

  lemma ColonLast(text: string, colon: nat)
    requires colon < |text| && text[colon] == ':' && TagPattern(text[colon + 1..])
    ensures RFind(text, ':') == colon && RFind(text, '/') < colon
  {
    var tag := text[colon + 1..];
    forall i | colon < i < |text| ensures IsTagChar(text[i]) {
      assert text[i] == tag[i - colon - 1];
    }
    RFindIs(text, ':', colon);
  }

  /** A tag change is accepted exactly between two different canonical images of one
      repository; the check does not care which of them is current. */
  lemma TagChangeExactly(current: string, target: string)
    ensures ValidateTagChange(current, target).Success? <==>
      && Canonical(current).Some? && Canonical(target).Some?
      && RepositoryOf(current) == RepositoryOf(target) && Canonical(current) != Canonical(target)
    ensures ValidateTagChange(current, target).Success? ==>
      ValidateTagChange(target, current) ==
        Success((ValidateTagChange(current, target).value.1, ValidateTagChange(current, target).value.0))
    ensures ValidateTagChange(current, target).Success? == ValidateTagChange(target, current).Success?
  {
    if Canonical(current).Some? && Canonical(target).Some? {
      CanonicalTextInjective(current, target);
    }
  }

  /** An accepted reference whose canonical text outgrows the limit: the canonical text is
      refused by the parser that produced it. */
  lemma CanonicalCanOutgrowLimit()
    ensures exists raw :: Canonical(raw).Some? && Canonical(Canonical(raw).value) == None
  {
    var path := seq(510, i => 'a');
    var raw := path + [':', 'a'];
    assert raw[510] == ':' && raw[..510] == path && raw[511..] == ['a'];
    LongPath(raw, path);
    assert Canonical(raw).Some?;
    CanonicalRoundTrip(raw);
    CanonicalLength(TaggedImage(path, "a"), path);
  }

  lemma LongPath(raw: string, path: string)
    requires |raw| == 512 && |path| == 510 && forall i :: 0 <= i < 510 ==> path[i] == 'a'
    requires raw[510] == ':' && raw[..510] == path && raw[511..] == ['a']
    ensures ParseTaggedImage(raw) == Success(TaggedImage(path, "a"))
  {
    SplitOne(path);
    assert path[0] == 'a';
    forall i | 0 <= i < 510 ensures raw[i] == 'a' { assert raw[i] == path[i]; }
    ParseText(raw, 510);
  }

  lemma CanonicalLength(image: TaggedImage, path: string)
    requires image == TaggedImage(path, "a") && |path| == 510
    requires forall i :: 0 <= i < 510 ==> path[i] == 'a'
    ensures |CanonicalText(image)| > MAX_LENGTH
  {
    ToLowerIdentity(path);
    SplitOne(path);
    assert path[0] == 'a';
    var q := [DOCKER_HUB, "library", path];
    assert CanonicalParts([path]) == q;
    assert q[1..][1..] == [path];
    assert |Join(q)| >= |Join(q[1..])| >= |Join([path])|;
    assert |Join(q)| == |DOCKER_HUB| + 1 + |Join(q[1..])|;
  }
}
