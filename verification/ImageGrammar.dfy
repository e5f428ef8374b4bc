/** The language of image references (cloudhelm/image_reference.py), as its patterns spell it:
    the parser accepts exactly that language, and reads off it what the text says. */
module ImageGrammar {
  import opened Wrappers
  import opened ImageReference

  // ---------------------------------------------------------------- the patterns

  ghost predicate Alnums(s: string) {
    s != "" && forall i :: 0 <= i < |s| ==> 'a' <= s[i] <= 'z' || '0' <= s[i] <= '9'
  }

  /** `[._]|__|[-]+` */
  ghost predicate Separator(s: string) {
    s == "." || s == "_" || s == "__" || (s != "" && forall i :: 0 <= i < |s| ==> s[i] == '-')
  }

  /** `[a-z0-9]+(?:(?:[._]|__|[-]+)[a-z0-9]+)*` */
  ghost predicate Component(s: string)
    decreases |s|
  {
    Alnums(s) || exists i, j :: 0 < i < j < |s| && Alnums(s[..i]) && Separator(s[i..j]) && Component(s[j..])
  }

  /** `[a-z0-9](?:[a-z0-9.-]*[a-z0-9])?`, which `localhost` matches too */
  ghost predicate Host(s: string) {
    && s != "" && Alnums(s[..1]) && Alnums(s[|s| - 1..])
    && forall i :: 0 <= i < |s| ==> 'a' <= s[i] <= 'z' || '0' <= s[i] <= '9' || s[i] == '.' || s[i] == '-'
  }

  /** `(?::[0-9]{1,5})?` */
  ghost predicate Port(s: string) {
    s == "" || (2 <= |s| <= 6 && s[0] == ':' && forall i :: 1 <= i < |s| ==> '0' <= s[i] <= '9')
  }

  ghost predicate RegistryName(s: string) {
    exists k :: 0 <= k <= |s| && Host(s[..k]) && Port(s[k..])
  }

  /** `[A-Za-z0-9_][A-Za-z0-9_.-]{0,127}` */
  ghost predicate Tag(s: string) {
    && 1 <= |s| <= 128 && s[0] != '.' && s[0] != '-'
    && forall i :: 0 <= i < |s| ==>
         'a' <= s[i] <= 'z' || 'A' <= s[i] <= 'Z' || '0' <= s[i] <= '9' || s[i] == '_' || s[i] == '.' || s[i] == '-'
  }

  lemma {:induction false} ComponentIsPattern(s: string)
    requires Component(s)
    ensures PathComponent(s)
    decreases |s|
  {
    if !Alnums(s) {
      var i, j :| 0 < i < j < |s| && Alnums(s[..i]) && Separator(s[i..j]) && Component(s[j..]);
      ComponentIsPattern(s[j..]);
      Composed(s, i, j);
    }
  }

  lemma Composed(s: string, i: nat, j: nat)
    requires 0 < i < j < |s| && Alnums(s[..i]) && Separator(s[i..j]) && PathComponent(s[j..])
    ensures PathComponent(s)
  {
    assert forall k :: 0 <= k < i ==> s[k] == s[..i][k];
    assert forall k :: i <= k < j ==> s[k] == s[i..j][k - i];
    assert forall k :: j <= k < |s| ==> s[k] == s[j..][k - j];
  }

  lemma {:induction false} PatternIsComponent(s: string)
    requires PathComponent(s)
    ensures Component(s)
    decreases |s|
  {
    if !Alnums(s) {
      var i := FirstOther(s, 0);
      var j := FirstAlnum(s, i);
      SeparatorFound(s, i, j);
      assert Alnums(s[..i]);
      RestIsPattern(s, j);
      PatternIsComponent(s[j..]);
    }
  }

  lemma {:induction false} FirstOther(s: string, from: nat) returns (i: nat)
    requires from <= |s| && exists k :: from <= k < |s| && !IsLowerAlnum(s[k])
    ensures from <= i < |s| && !IsLowerAlnum(s[i]) && forall k :: from <= k < i ==> IsLowerAlnum(s[k])
    decreases |s| - from
  {
    if !IsLowerAlnum(s[from]) { i := from; } else { i := FirstOther(s, from + 1); }
  }

  lemma {:induction false} FirstAlnum(s: string, from: nat) returns (j: nat)
    requires from < |s| && IsLowerAlnum(s[|s| - 1])
    ensures from <= j < |s| && IsLowerAlnum(s[j]) && forall k :: from <= k < j ==> !IsLowerAlnum(s[k])
    decreases |s| - from
  {
    if IsLowerAlnum(s[from]) { j := from; } else { j := FirstAlnum(s, from + 1); }
  }

  lemma RestIsPattern(s: string, j: nat)
    requires PathComponent(s) && 0 < j < |s| && IsLowerAlnum(s[j])
    ensures PathComponent(s[j..])
  {}

  lemma {:induction false} AllAlike(s: string, i: nat, j: nat, k: nat)
    requires PathComponent(s) && i <= k < j < |s| && forall m :: i <= m < j ==> !IsLowerAlnum(s[m])
    ensures s[k] == s[i] && (k > i ==> s[i] != '.')
    decreases k
  {
    if k > i { AllAlike(s, i, j, k - 1); }
  }

  lemma SeparatorFound(s: string, i: nat, j: nat)
    requires PathComponent(s) && 0 < i < j < |s| && forall m :: i <= m < j ==> !IsLowerAlnum(s[m])
    ensures Separator(s[i..j])
  {
    forall k | i <= k < j ensures s[k] == s[i] && (k > i ==> s[i] != '.') { AllAlike(s, i, j, k); }
    if s[i] == '-' {
      assert forall k :: 0 <= k < |s[i..j]| ==> s[i..j][k] == s[i + k];
    } else if j == i + 1 {
      assert s[i..j] == [s[i]];
    } else {
      assert s[i] in "._-" && s[i + 1] == s[i];
      assert s[i] == '_';
      assert s[i + 2] != '_';
      assert s[i..j] == "__";
    }
  }

  /** The parser's positional test is the pattern of path components. */
  lemma ComponentExactly(s: string)
    ensures PathComponent(s) <==> Component(s)
  {
    if Component(s) { ComponentIsPattern(s); }
    if PathComponent(s) { PatternIsComponent(s); }
  }

  lemma HostExactly(s: string)
    ensures RegistryHost(s) <==> Host(s)
  {}

  lemma PatternIsRegistry(s: string)
    requires RegistryPattern(s)
    ensures RegistryName(s)
  {
    hide RegistryHost, Host;
    var colon := RFind(s, ':');
    var k := if colon < 0 then |s| else colon;
    HostExactly(s[..k]);
    if colon < 0 { assert s[..k] == s && s[k..] == ""; } else { PortFound(s, k); }
  }

  lemma PortFound(s: string, k: nat)
    requires k < |s| && s[k] == ':' && 1 <= |s[k + 1..]| <= 5 && forall i :: k < i < |s| ==> IsDigit(s[i])
    ensures Port(s[k..])
  {}

  lemma RegistryIsPattern(s: string, k: nat)
    requires k <= |s| && Host(s[..k]) && Port(s[k..])
    ensures RegistryPattern(s)
  {
    hide RFind;
    HostExactly(s[..k]);
    NoColon(s, k);
    if k == |s| {
      assert s[..k] == s;
      RFindIs(s, ':', -1);
    } else {
      assert s[k] == s[k..][0];
      assert forall i :: k < i < |s| ==> s[i] == s[k..][i - k];
      RFindIs(s, ':', k);
    }
    hide RegistryHost, Host;
  }

  lemma NoColon(s: string, k: nat)
    requires k <= |s| && Host(s[..k])
    ensures forall i :: 0 <= i < k ==> s[i] != ':'
  {
    assert forall i :: 0 <= i < k ==> s[i] == s[..k][i];
  }

  /** The parser's test of registries is their pattern. */
  lemma RegistryExactly(s: string)
    ensures RegistryPattern(s) <==> RegistryName(s)
  {
    hide RegistryPattern, Host, Port;
    if RegistryPattern(s) { PatternIsRegistry(s); }
    if k :| 0 <= k <= |s| && Host(s[..k]) && Port(s[k..]) { RegistryIsPattern(s, k); }
  }

  lemma TagExactly(s: string)
    ensures TagPattern(s) <==> Tag(s)
  {}

  // ---------------------------------------------------------------- the language

  /** A first part with a dot or a colon, or `localhost`, names a registry. */
  ghost predicate NamesRegistry(first: string) {
    first == "localhost" || exists i :: 0 <= i < |first| && (first[i] == '.' || first[i] == ':')
  }

  /** The text is these parts with slashes between them: perhaps a registry, and at least one
      component. */
  ghost predicate Repository(text: string, parts: seq<string>) {
    && parts != [] && text == Join(parts)
    && if NamesRegistry(parts[0]) then
         |parts| >= 2 && RegistryName(parts[0]) && forall k :: 1 <= k < |parts| ==> Component(parts[k])
       else forall k :: 0 <= k < |parts| ==> Component(parts[k])
  }

  /** The code points that count as white space, among them tab to carriage return, space, the
      no-break space, the line and paragraph separators and the ideographic space. */
  const WHITE_SPACE: set<int> := {
    0x09, 0x0A, 0x0B, 0x0C, 0x0D, 0x1C, 0x1D, 0x1E, 0x1F, 0x20, 0x85, 0xA0, 0x1680, 0x2000, 0x2001, 0x2002, 0x2003, 0x2004,
    0x2005, 0x2006, 0x2007, 0x2008, 0x2009, 0x200A, 0x2028, 0x2029, 0x202F, 0x205F, 0x3000 }

  lemma SpaceExactly(c: char)
    ensures IsSpace(c) <==> c as int in WHITE_SPACE
  {}

  /** `value` is the text without the white space around it. */
  ghost predicate Stripped(raw: string, value: string) {
    exists a, b :: 0 <= a <= b <= |raw| && value == raw[a..b]
      && (forall i :: 0 <= i < a || b <= i < |raw| ==> raw[i] as int in WHITE_SPACE)
      && (a < b ==> raw[a] as int !in WHITE_SPACE && raw[b - 1] as int !in WHITE_SPACE)
  }

  lemma {:induction false} LeftStripped(s: string) returns (a: nat)
    ensures a <= |s| && StripLeft(s) == s[a..] && (forall i :: 0 <= i < a ==> IsSpace(s[i]))
    ensures a < |s| ==> !IsSpace(s[a])
  {
    hide IsSpace;
    if s != "" && IsSpace(s[0]) {
      var b := LeftStripped(s[1..]);
      a := b + 1;
      assert forall i :: 0 < i < a ==> s[i] == s[1..][i - 1];
    } else {
      a := 0;
    }
  }

  lemma {:induction false} RightStripped(s: string) returns (b: nat)
    ensures b <= |s| && StripRight(s) == s[..b] && (forall i :: b <= i < |s| ==> IsSpace(s[i]))
    ensures b > 0 ==> !IsSpace(s[b - 1])
  {
    hide IsSpace;
    if s != "" && IsSpace(s[|s| - 1]) {
      b := RightStripped(s[..|s| - 1]);
    } else {
      b := |s|;
    }
  }

  lemma StripExactly(raw: string)
    ensures Stripped(raw, Strip(raw))
  {
    hide IsSpace;
    var a := LeftStripped(raw);
    var left := StripLeft(raw);
    var b := RightStripped(left);
    assert Strip(raw) == raw[a..a + b];
    assert forall i :: a <= i < |raw| ==> raw[i] == left[i - a];
    forall i | 0 <= i < |raw| ensures IsSpace(raw[i]) <==> raw[i] as int in WHITE_SPACE { SpaceExactly(raw[i]); }
  }

  lemma {:induction false} JoinSplit(s: string)
    ensures Join(Split(s)) == s && forall k :: 0 <= k < |Split(s)| ==> NoSlash(Split(s)[k])
  {
    if s != "" {
      JoinSplit(s[1..]);
      var rest := Split(s[1..]);
      if s[0] == '/' {
        assert Split(s) == [""] + rest;
      } else {
        assert Split(s) == [[s[0]] + rest[0]] + rest[1..];
      }
    }
  }

  lemma RegistryNamed(first: string)
    ensures LooksLikeRegistry(first) <==> NamesRegistry(first)
  {}

  lemma PartsExactly(parts: seq<string>)
    requires parts != []
    ensures RepositoryParts(parts) <==> Repository(Join(parts), parts)
  {
    hide RegistryPattern, RegistryName, PathComponent, Component, LooksLikeRegistry, NamesRegistry, Join;
    RegistryNamed(parts[0]);
    RegistryExactly(parts[0]);
    forall k | 0 <= k < |parts| ensures PathComponent(parts[k]) <==> Component(parts[k]) { ComponentExactly(parts[k]); }
    var path := PathOf(parts);
    if LooksLikeRegistry(parts[0]) {
      assert path == parts[1..];
      assert forall k :: 1 <= k < |parts| ==> parts[k] == path[k - 1];
    } else {
      assert path == parts;
    }
  }

  /** What a repository is made of. */
  lemma RepositoryText(text: string, parts: seq<string>)
    requires Repository(text, parts)
    ensures RepositoryParts(parts) && Split(text) == parts && ToLower(text) == text
    ensures text != "" && IsLowerAlnum(text[0]) && text[|text| - 1] != '/'
    ensures forall i :: 0 <= i < |text| ==> RepositoryChar(text[i])
  {
    hide Repository, RepositoryParts, RepositoryChar, IsLowerAlnum, NoSlash, Join, Split, ToLower;
    RepositoryIs(text, parts);
    forall p | p in parts
      ensures p != "" && IsLowerAlnum(p[0]) && IsLowerAlnum(p[|p| - 1]) && NoSlash(p)
      ensures forall i :: 0 <= i < |p| ==> RepositoryChar(p[i])
    {
      var k :| 0 <= k < |parts| && parts[k] == p;
      PartChars(parts, k);
    }
    JoinedText(parts);
  }

  lemma RepositoryIs(text: string, parts: seq<string>)
    requires Repository(text, parts)
    ensures parts != [] && text == Join(parts) && RepositoryParts(parts)
  {
    hide Component, RegistryName, Join, RepositoryParts, NamesRegistry;
    PartsExactly(parts);
  }

  lemma JoinedText(parts: seq<string>)
    requires parts != []
    requires forall p :: p in parts ==> p != "" && IsLowerAlnum(p[0]) && IsLowerAlnum(p[|p| - 1]) && NoSlash(p)
    requires forall p :: p in parts ==> forall i :: 0 <= i < |p| ==> RepositoryChar(p[i])
    ensures var text := Join(parts);
      && Split(text) == parts && ToLower(text) == text
      && text != "" && IsLowerAlnum(text[0]) && text[|text| - 1] != '/'
      && forall i :: 0 <= i < |text| ==> RepositoryChar(text[i])
  {
    hide Join, Split;
    JoinChars(parts, RepositoryChar);
    JoinEnds(parts);
    SplitJoin(parts);
    FirstOfJoin(parts);
    ToLowerIdentity(Join(parts));
  }

  lemma PartChars(parts: seq<string>, k: nat)
    requires RepositoryParts(parts) && k < |parts|
    ensures parts[k] != "" && IsLowerAlnum(parts[k][0]) && IsLowerAlnum(parts[k][|parts[k]| - 1]) && NoSlash(parts[k])
    ensures forall i :: 0 <= i < |parts[k]| ==> RepositoryChar(parts[k][i])
  {
    if LooksLikeRegistry(parts[0]) && k == 0 {
      RegistryChars(parts[0]);
    } else {
      assert parts[k] in PathOf(parts);
    }
  }

  lemma FirstOfJoin(parts: seq<string>)
    requires parts != [] && parts[0] != ""
    ensures Join(parts) != "" && Join(parts)[0] == parts[0][0]
  {}

  /** The parser accepts exactly the texts that are, but for white space around them, a
      repository, a colon and a tag, of at most 512 characters, and reads off both. */
  lemma ParsesExactly(raw: string, repository: string, tag: string)
    ensures ParseTaggedImage(raw) == Success(TaggedImage(repository, tag)) <==>
      && Strip(raw) == repository + ":" + tag && |Strip(raw)| <= 512 && Tag(tag)
      && exists parts :: Repository(repository, parts)
  {
    if ParseTaggedImage(raw) == Success(TaggedImage(repository, tag)) { ParsedIsText(raw, repository, tag); }
    if Strip(raw) == repository + ":" + tag && |Strip(raw)| <= 512 && Tag(tag) {
      if parts :| Repository(repository, parts) { TextIsParsed(raw, repository, tag, parts); }
    }
  }

  lemma ParsedIsText(raw: string, repository: string, tag: string)
    requires ParseTaggedImage(raw) == Success(TaggedImage(repository, tag))
    ensures Strip(raw) == repository + ":" + tag && |Strip(raw)| <= 512 && Tag(tag)
    ensures Repository(repository, Split(repository))
  {
    hide Strip, RepositoryParts, TagPattern, Tag, Repository, Split, ToLower, Join;
    TagExactly(tag);
    JoinSplit(repository);
    PartsExactly(Split(repository));
    var value := Strip(raw);
    assert value == value[..RFind(value, ':')] + [':'] + value[RFind(value, ':') + 1..];
  }

  lemma TextIsParsed(raw: string, repository: string, tag: string, parts: seq<string>)
    requires Strip(raw) == repository + ":" + tag && |Strip(raw)| <= 512 && Tag(tag) && Repository(repository, parts)
    ensures ParseTaggedImage(raw) == Success(TaggedImage(repository, tag))
  {
    hide Strip, RepositoryParts, TagPattern, Tag, Repository, Split, ToLower, Join, ParseTaggedImage, RepositoryChar;
    var text := Strip(raw);
    TagExactly(tag);
    RepositoryText(repository, parts);
    TextFits(repository, parts, tag, text);
    LastChar(repository, tag, text);
    StripIdentity(text);
    SameStripped(raw, text);
  }

  lemma SameStripped(raw: string, text: string)
    requires Strip(raw) == text && Strip(text) == text
    ensures ParseTaggedImage(raw) == ParseTaggedImage(text)
  {
    hide Strip, RepositoryParts, TagPattern, Split, ToLower;
  }

  /** Without a registry, or under one of its names, an image is on Docker Hub. */
  ghost predicate OnHub(first: string) {
    !NamesRegistry(first) || first == "docker.io" || first == "index.docker.io" || first == "registry-1.docker.io"
  }

  lemma HubExactly(first: string)
    ensures Registry(first) == if OnHub(first) then "docker.io" else first
    ensures Registry(first) == "docker.io" <==> OnHub(first)
  {
    RegistryNamed(first);
    hide LooksLikeRegistry, NamesRegistry;
  }

  /** The canonical repository: the registry named, but Docker Hub if none is or one of its
      other names, then the path, to which Hub adds `library` if it is one component. */
  lemma CanonicalExactly(image: TaggedImage, parts: seq<string>)
    requires Repository(image.repository, parts)
    ensures var path := if NamesRegistry(parts[0]) then parts[1..] else parts;
      && path != []
      && CanonicalText(image) ==
           if OnHub(parts[0]) then "docker.io/" + (if |path| == 1 then "library/" else "") + Join(path) + ":" + image.tag
           else parts[0] + "/" + Join(path) + ":" + image.tag
  {
    hide Repository, RepositoryParts, OnHub, NamesRegistry, ToLower, Split, Join, Registry, PathOf, CanonicalParts,
      CanonicalText, RepositoryChar, IsLowerAlnum;
    RepositoryText(image.repository, parts);
    PathIsThere(image.repository, parts);
    CanonicalTextIs(image, parts);
    PartsJoined(parts);
    LibraryText(Join(PathOf(parts)), image.tag);
  }

  lemma CanonicalTextIs(image: TaggedImage, parts: seq<string>)
    requires parts != [] && Split(image.repository) == parts && ToLower(image.repository) == image.repository
    ensures CanonicalText(image) == Join(CanonicalParts(parts)) + ":" + image.tag
  {
    hide Split, ToLower, Join, CanonicalParts;
  }

  lemma PartsJoined(parts: seq<string>)
    requires parts != [] && PathOf(parts) != []
    ensures var path := PathOf(parts);
      Join(CanonicalParts(parts)) ==
        if !OnHub(parts[0]) then parts[0] + "/" + Join(path)
        else if |path| == 1 then "docker.io" + "/" + ("library" + "/" + Join(path)) else "docker.io" + "/" + Join(path)
  {
    hide OnHub, Join, Registry, PathOf;
    HubExactly(parts[0]);
    var path := PathOf(parts);
    JoinOne(Registry(parts[0]), path);
    JoinOne("library", path);
    JoinOne(Registry(parts[0]), ["library"] + path);
    assert [Registry(parts[0]), "library"] + path == [Registry(parts[0])] + (["library"] + path);
  }

  lemma LibraryText(path: string, tag: string)
    ensures "docker.io" + "/" + ("library" + "/" + path) + ":" + tag == "docker.io/" + "library/" + path + ":" + tag
    ensures "docker.io" + "/" + path + ":" + tag == "docker.io/" + "" + path + ":" + tag
  {
    assert "docker.io" + "/" == "docker.io/" && "library" + "/" == "library/";
    assert "docker.io/" + ("library/" + path) == "docker.io/" + "library/" + path;
    assert "docker.io/" + "" == "docker.io/";
  }

  lemma PathIsThere(text: string, parts: seq<string>)
    requires Repository(text, parts)
    ensures PathOf(parts) != [] && PathOf(parts) == if NamesRegistry(parts[0]) then parts[1..] else parts
  {
    RegistryNamed(parts[0]);
  }

  lemma JoinOne(first: string, path: seq<string>)
    requires path != []
    ensures Join([first] + path) == first + "/" + Join(path)
  {
    assert ([first] + path)[1..] == path;
  }

  /** Two texts name the same image exactly if both are images, of one canonical repository and
      with one tag. */
  lemma SameImageExactly(left: string, right: string)
    ensures SameImage(left, right) <==>
      && ParseTaggedImage(left).Success? && ParseTaggedImage(right).Success?
      && RepositoryOf(left) == RepositoryOf(right)
      && ParseTaggedImage(left).value.tag == ParseTaggedImage(right).value.tag
  {
    hide ParseTaggedImage, CanonicalText, CanonicalRepository;
    if ParseTaggedImage(left).Success? && ParseTaggedImage(right).Success? { CanonicalTextInjective(left, right); }
  }
}
