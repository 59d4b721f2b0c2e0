/** Image references: how they are parsed, printed, and when printing and parsing again gives back the same. */
module Reference {
  import opened Wrappers

  datatype ImageReference = ImageReference(registry: string, repository: string, tag: string, digest: string,
    raw: string)

  datatype ParseError = EmptyReference | InvalidDigest | EmptyRegistry | EmptyRepository | NoTagOrDigest | InvalidTag

  const DEFAULT_REGISTRY := "docker.io"

  /** The first place of a character, or the length if there is none. */
  function First(s: string, c: char): (i: nat)
    ensures i <= |s|
  {
    if s == "" || s[0] == c then 0 else 1 + First(s[1..], c)
  }

  /** The last place of a character, or -1. */
  function Last(s: string, c: char): (i: int)
    ensures -1 <= i < |s|
  {
    if s == "" then -1 else if s[|s| - 1] == c then |s| - 1 else Last(s[..|s| - 1], c)
  }

  predicate IsRegistryHost(s: string) {
    '.' in s || ':' in s || s == "localhost"
  }

  predicate IsTagStart(c: char) {
    'a' <= c <= 'z' || 'A' <= c <= 'Z' || '0' <= c <= '9' || c == '_'
  }

  predicate IsTagChar(c: char) {
    IsTagStart(c) || c == '.' || c == '-'
  }

  /**
   The tag grammar of the OCI Distribution Specification, section "Pulling manifests"; the empty tag is let through.
   */
  predicate IsValidTag(tag: string) {
    tag == "" || (|tag| <= 128 && IsTagStart(tag[0]) && forall i :: 0 <= i < |tag| ==> IsTagChar(tag[i]))
  }

  predicate IsHex(c: char) {
    'a' <= c <= 'f' || '0' <= c <= '9'
  }

  /** A known algorithm, a colon, and at least 32 hexadecimal digits. */
  predicate IsValidDigest(digest: string) {
    var colon := First(digest, ':');
    && colon < |digest|
    && digest[..colon] in {"sha256", "sha512"}
    && |digest| - colon - 1 >= 32 && forall i :: colon < i < |digest| ==> IsHex(digest[i])
  }

  function Validate(r: ImageReference): Option<ParseError> {
    if r.registry == "" then Some(EmptyRegistry)
    else if r.repository == "" then Some(EmptyRepository)
    else if r.tag == "" && r.digest == "" then Some(NoTagOrDigest)
    else if !IsValidTag(r.tag) && r.tag != "" then Some(InvalidTag)
    else None
  }

  datatype Named = Named(path: string, tag: string)

  /** A last colon with no slash after it starts a tag; otherwise it belongs to a port. */
  function SplitTag(name: string): Named {
    var colon := Last(name, ':');
    if colon >= 0 && '/' !in name[colon + 1..] then Named(name[..colon], name[colon + 1..]) else Named(name, "")
  }

  datatype Located = Located(registry: string, repository: string)

  function SplitRegistry(path: string): Located {
    var slash := First(path, '/');
    if slash == |path| then Located(DEFAULT_REGISTRY, "library/" + path)
    else if IsRegistryHost(path[..slash]) then Located(path[..slash], path[slash + 1..])
    else Located(DEFAULT_REGISTRY, path)
  }

  /** The parse once the digest is split off. */
  function ParseName(name: string, digest: string, raw: string): Result<ImageReference, ParseError> {
    var n := SplitTag(name);
    var l := SplitRegistry(n.path);
    var tag := if n.tag == "" && digest == "" then "latest" else n.tag;
    var r := ImageReference(l.registry, l.repository, tag, digest, raw);
    match Validate(r)
    case None => Ok(r)
    case Some(e) => Err(e)
  }

  function Parse(ref: string): Result<ImageReference, ParseError> {
    var at := First(ref, '@');
    if ref == "" then Err(EmptyReference)
    else if at == |ref| then ParseName(ref, "", ref)
    else if !IsValidDigest(ref[at + 1..]) then Err(InvalidDigest)
    else ParseName(ref[..at], ref[at + 1..], ref)
  }

  /** The canonical form. */
  function Printed(r: ImageReference): string {
    r.registry + "/" + r.repository + if r.digest != "" then "@" + r.digest else if r.tag != "" then ":" + r.tag else ""
  }

  // ---------- What parsing accepts ----------

  /** What holds of every accepted reference. */
  predicate Accepted(r: ImageReference) {
    && '/' !in r.registry && '@' !in r.registry && IsRegistryHost(r.registry)
    && '@' !in r.repository && r.repository != ""
    && IsValidTag(r.tag) && (r.digest == "" ==> r.tag != "") && (r.digest != "" ==> IsValidDigest(r.digest))
  }

  /** The text after the last slash. */
  function LastSegment(repository: string): string {
    repository[Last(repository, '/') + 1..]
  }

  /** s has no c from i up to j. */
  predicate Free(s: string, c: char, i: int, j: int)
    requires 0 <= i && j <= |s|
  {
    forall k :: i <= k < j ==> s[k] != c
  }

  lemma {:induction false} FirstFacts(s: string, c: char)
    ensures Free(s, c, 0, First(s, c)) && (First(s, c) < |s| ==> s[First(s, c)] == c)
    decreases |s|
  {
    if s != "" && s[0] != c {
      FirstFacts(s[1..], c);
      assert forall k :: 0 < k < First(s, c) ==> s[k] == s[1..][k - 1];
    }
  }

  lemma {:induction false} LastFacts(s: string, c: char)
    ensures Free(s, c, Last(s, c) + 1, |s|) && (Last(s, c) >= 0 ==> s[Last(s, c)] == c)
    decreases |s|
  {
    if s != "" && s[|s| - 1] != c {
      LastFacts(s[..|s| - 1], c);
      assert forall k :: 0 <= k < |s| - 1 ==> s[k] == s[..|s| - 1][k];
    }
  }

  lemma {:induction false} LastIs(a: string, c: char, b: string)
    requires c !in b
    ensures Last(a + [c] + b, c) == |a|
    decreases |b|
  {
    var s := a + [c] + b;
    if b != "" {
      assert s[..|s| - 1] == a + [c] + b[..|b| - 1];
      LastIs(a, c, b[..|b| - 1]);
    }
  }

  lemma FirstIs(a: string, c: char, b: string)
    requires c !in a
    ensures First(a + [c] + b, c) == |a|
  {
    hide First;
    var s := a + [c] + b;
    forall k | 0 <= k < |a| ensures s[k] != c {
      assert s[k] == a[k];
    }
    assert s[|a|] == c;
    FirstFacts(s, c);
  }

  lemma FreeSlice(s: string, c: char, i: nat)
    requires i <= |s|
    ensures Free(s, c, i, |s|) <==> c !in s[i..]
  {
    assert forall k :: i <= k < |s| ==> s[k] == s[i..][k - i];
    assert forall k :: 0 <= k < |s| - i ==> s[i..][k] == s[i + k];
  }

  lemma FirstPart(s: string, c: char)
    ensures c !in s[..First(s, c)]
  {
    hide First;
    FirstFacts(s, c);
  }

  lemma JoinFree(a: string, b: string, c: char)
    ensures c in a + b <==> c in a || c in b
  {
  }

  lemma TagHasNoMarks(tag: string)
    requires IsValidTag(tag)
    ensures ':' !in tag && '/' !in tag && '@' !in tag
  {
  }

  lemma SplitTagAt(path: string, tag: string)
    requires ':' !in tag && '/' !in tag
    ensures SplitTag(path + ":" + tag) == Named(path, tag)
  {
    hide Last;
    var name := path + [':'] + tag;
    LastIs(path, ':', tag);
    assert name[..|path|] == path && name[|path| + 1..] == tag;
  }

  lemma SplitRegistryAt(registry: string, repository: string)
    requires '/' !in registry && IsRegistryHost(registry)
    ensures SplitRegistry(registry + "/" + repository) == Located(registry, repository)
  {
    hide First, IsRegistryHost;
    var path := registry + ['/'] + repository;
    FirstIs(registry, '/', repository);
    assert path[..|registry|] == registry && path[|registry| + 1..] == repository;
  }

  lemma ParseWithDigest(name: string, digest: string)
    requires '@' !in name && IsValidDigest(digest)
    ensures Parse(name + "@" + digest) == ParseName(name, digest, name + "@" + digest)
  {
    hide First, IsValidDigest, ParseName;
    var s := name + ['@'] + digest;
    FirstIs(name, '@', digest);
    assert s[..|name|] == name && s[|name| + 1..] == digest;
  }

  lemma SplitTagInherits(name: string)
    ensures '@' !in name ==> '@' !in SplitTag(name).path
  {
    hide Last;
  }

  lemma SplitRegistryGives(path: string)
    ensures var l := SplitRegistry(path);
            && '/' !in l.registry && IsRegistryHost(l.registry)
            && ('@' !in path ==> '@' !in l.registry && '@' !in l.repository)
  {
    hide First;
    var slash := First(path, '/');
    FirstPart(path, '/');
    JoinFree("library/", path, '@');
    assert DEFAULT_REGISTRY[6] == '.';
  }

  lemma EmptyTagIsValid()
    ensures IsValidTag("")
  {
  }

  lemma HostIsNotEmpty(registry: string)
    requires IsRegistryHost(registry)
    ensures registry != ""
  {
  }

  /** Whatever is parsed is acceptable. */
  lemma ParseIsAccepted(ref: string)
    ensures Parse(ref).Ok? ==> Accepted(Parse(ref).value) && Parse(ref).value.raw == ref
  {
    hide SplitTag, SplitRegistry, IsValidDigest, IsValidTag, IsRegistryHost, First;
    if Parse(ref).Ok? {
      var at := First(ref, '@');
      var name := ref[..at];
      FirstPart(ref, '@');
      SplitTagInherits(name);
      SplitRegistryGives(SplitTag(name).path);
      EmptyTagIsValid();
      assert at == |ref| ==> name == ref;
    }
  }

  // ---------- Round trips ----------

  lemma ParseWithout(name: string)
    requires '@' !in name && name != ""
    ensures Parse(name) == ParseName(name, "", name)
  {
    hide First, ParseName;
    FirstFacts(name, '@');
  }

  lemma PathHasNoAt(r: ImageReference)
    requires Accepted(r)
    ensures '@' !in r.registry + "/" + r.repository
  {
    hide IsValidDigest, IsValidTag, IsRegistryHost;
    JoinFree(r.registry, "/", '@');
    JoinFree(r.registry + "/", r.repository, '@');
  }

  /** Every accepted reference without digest is what its printed form parses to. */
  lemma PrintedTagParses(r: ImageReference)
    requires Accepted(r) && r.digest == ""
    ensures Parse(Printed(r)) == Ok(r.(raw := Printed(r)))
  {
    hide SplitTag, SplitRegistry, IsValidDigest, IsValidTag, IsRegistryHost, Parse;
    var path := r.registry + "/" + r.repository;
    TagHasNoMarks(r.tag);
    SplitTagAt(path, r.tag);
    SplitRegistryAt(r.registry, r.repository);
    PathHasNoAt(r);
    JoinFree(path, ":", '@');
    JoinFree(path + ":", r.tag, '@');
    ParseWithout(path + ":" + r.tag);
    HostIsNotEmpty(r.registry);
    assert Printed(r) == path + ":" + r.tag;
  }

  /** The last colon of the printed name is in the last segment of the repository if that has one. */
  lemma LastColon(registry: string, repository: string)
    ensures var path, start := registry + "/" + repository, |registry| + 1 + Last(repository, '/') + 1;
            (exists i :: start <= i < |path| && path[i] == ':') <==> Last(path, ':') >= start
    ensures var path, start := registry + "/" + repository, |registry| + 1 + Last(repository, '/') + 1;
            Free(path, '/', start, |path|) && path[start - 1] == '/'
  {
    hide Last;
    var path := registry + "/" + repository;
    LastFacts(repository, '/');
    LastFacts(path, ':');
    assert forall i :: |registry| < i < |path| ==> path[i] == repository[i - |registry| - 1];
  }

  lemma LastSegmentAt(registry: string, repository: string)
    ensures var path, start := registry + "/" + repository, |registry| + 1 + Last(repository, '/') + 1;
            ':' in LastSegment(repository) <==> exists i :: start <= i < |path| && path[i] == ':'
  {
    hide Last;
    var path, start := registry + "/" + repository, |registry| + 1 + Last(repository, '/') + 1;
    assert path[start..] == LastSegment(repository);
    assert forall i :: start <= i < |path| ==> path[i] == LastSegment(repository)[i - start];
    assert forall i :: 0 <= i < |LastSegment(repository)| ==> path[start + i] == LastSegment(repository)[i];
  }

  lemma SlashAfterColon(registry: string, repository: string)
    ensures var path, start := registry + "/" + repository, |registry| + 1 + Last(repository, '/') + 1;
            '/' !in path[Last(path, ':') + 1..] <==> Last(path, ':') >= start
  {
    hide Last;
    var path, start := registry + "/" + repository, |registry| + 1 + Last(repository, '/') + 1;
    LastColon(registry, repository);
    LastFacts(path, ':');
    FreeSlice(path, '/', Last(path, ':') + 1);
  }

  lemma TagSplitIff(registry: string, repository: string)
    ensures var path := registry + "/" + repository;
            if ':' in LastSegment(repository)
            then var n := |SplitTag(path).path|; |registry| < n < |path| && SplitTag(path).path == path[..n]
            else SplitTag(path) == Named(path, "")
  {
    hide Last, LastSegment, Free;
    LastColon(registry, repository);
    LastSegmentAt(registry, repository);
    SlashAfterColon(registry, repository);
  }

  /** Parsing again gives back registry, repository and digest, and the tag when there is no digest. */
  predicate SameReference(again: Result<ImageReference, ParseError>, r: ImageReference) {
    && again.Ok?
    && again.value.registry == r.registry && again.value.repository == r.repository && again.value.digest == r.digest
    && (r.digest == "" ==> again.value.tag == r.tag)
  }

  /**
   In the digest form, what is parsed again has a shorter repository if the last segment has a colon, and is the same
   if not.
   */
  lemma PrintedDigestParses(r: ImageReference)
    requires Accepted(r) && r.digest != ""
    ensures var again := Parse(Printed(r));
            if ':' in LastSegment(r.repository)
            then again.Ok? ==>
              again.value.registry == r.registry && again.value.digest == r.digest
                && |again.value.repository| < |r.repository|
            else again == Ok(r.(tag := "", raw := Printed(r)))
  {
    var path := r.registry + "/" + r.repository;
    HostIsNotEmpty(r.registry);
    hide SplitTag, SplitRegistry, IsValidDigest, IsValidTag, IsRegistryHost, LastSegment, Parse;
    PathHasNoAt(r);
    assert Printed(r) == path + "@" + r.digest;
    ParseWithDigest(path, r.digest);
    TagSplitIff(r.registry, r.repository);
    if ':' in LastSegment(r.repository) {
      var n := |SplitTag(path).path|;
      var kept := r.repository[..n - |r.registry| - 1];
      assert path[..n] == r.registry + "/" + kept;
      SplitRegistryAt(r.registry, kept);
    } else {
      SplitRegistryAt(r.registry, r.repository);
      EmptyTagIsValid();
    }
  }

  /**
   Printing an accepted reference and parsing again gives back the same reference, and the same canonical form, exactly
   if it has no digest or no colon in the last segment of its repository.
   */
  lemma RoundTripIff(ref: string)
    requires Parse(ref).Ok?
    ensures var r := Parse(ref).value;
            var stable := r.digest == "" || ':' !in LastSegment(r.repository);
            && (SameReference(Parse(Printed(r)), r) <==> stable)
            && (Parse(Printed(r)).Ok? && Printed(Parse(Printed(r)).value) == Printed(r) <==> stable)
  {
    var r := Parse(ref).value;
    ParseIsAccepted(ref);
    if r.digest == "" {
      PrintedTagParses(r);
    } else {
      PrintedDigestParses(r);
      var again := Parse(Printed(r));
      if ':' in LastSegment(r.repository) && again.Ok? {
        assert |Printed(again.value)| < |Printed(r)|;
      }
    }
  }

  /** Two accepted references without digest that print alike are the same. */
  lemma PrintedTagIsInjective(r: ImageReference, q: ImageReference)
    requires Accepted(r) && Accepted(q) && r.digest == "" && q.digest == "" && Printed(r) == Printed(q)
    ensures r.registry == q.registry && r.repository == q.repository && r.tag == q.tag
  {
    hide Parse, Printed, Accepted;
    PrintedTagParses(r);
    PrintedTagParses(q);
  }

  /** A name with registry, tag and digest parses into its parts, whatever the repository looks like. */
  lemma PartsParse(host: string, repository: string, tag: string, digest: string)
    requires '/' !in host && '@' !in host && ('.' in host || ':' in host || host == "localhost")
    requires repository != "" && '@' !in repository
    requires tag != "" && IsValidTag(tag) && IsValidDigest(digest)
    ensures var ref := host + "/" + repository + ":" + tag + "@" + digest;
            Parse(ref) == Ok(ImageReference(host, repository, tag, digest, ref))
  {
    TagHasNoMarks(tag);
    HostIsNotEmpty(host);
    hide SplitTag, SplitRegistry, IsValidDigest, IsValidTag, IsRegistryHost, Parse;
    var path := host + "/" + repository;
    JoinFree(host, "/", '@');
    JoinFree(host + "/", repository, '@');
    JoinFree(path, ":", '@');
    JoinFree(path + ":", tag, '@');
    ParseWithDigest(path + ":" + tag, digest);
    SplitTagAt(path, tag);
    SplitRegistryAt(host, repository);
    assert digest != "" by {
      DigestIsNotEmpty(digest);
    }
  }

  lemma NoColonNoTag(name: string)
    requires ':' !in name
    ensures SplitTag(name) == Named(name, "")
  {
    hide Last;
    LastFacts(name, ':');
  }

  lemma LatestIsValid()
    ensures IsValidTag("latest")
  {
  }

  /** A bare name is the latest library image of the default registry. */
  lemma BareNameParses(name: string)
    requires name != "" && ':' !in name && '/' !in name && '@' !in name
    ensures Parse(name) == Ok(ImageReference("docker.io", "library/" + name, "latest", "", name))
  {
    hide SplitTag, IsValidTag, Parse, First;
    ParseWithout(name);
    NoColonNoTag(name);
    FirstFacts(name, '/');
    LatestIsValid();
  }

  /** A first segment that does not look like a host is part of the repository. */
  lemma OrganisationParses(org: string, name: string)
    requires ':' !in org && '/' !in org && '@' !in org && '.' !in org && org != "localhost"
    requires ':' !in name && '@' !in name
    ensures Parse(org + "/" + name) == Ok(ImageReference("docker.io", org + "/" + name, "latest", "", org + "/" + name))
  {
    assert !IsRegistryHost(org);
    hide SplitTag, IsValidTag, IsRegistryHost, Parse, First;
    var path := org + ['/'] + name;
    JoinFree(org, "/", '@');
    JoinFree(org + "/", name, '@');
    JoinFree(org, "/", ':');
    JoinFree(org + "/", name, ':');
    ParseWithout(path);
    NoColonNoTag(path);
    FirstIs(org, '/', name);
    assert path[..|org|] == org;
    LatestIsValid();
  }

  /** A colon before the last slash is a port: the tag is the default one. */
  lemma PortIsNoTag(host: string, repository: string)
    requires '/' !in host && '@' !in host && ('.' in host || ':' in host || host == "localhost")
    requires repository != "" && '@' !in repository && ':' !in LastSegment(repository)
    ensures Parse(host + "/" + repository) ==
            Ok(ImageReference(host, repository, "latest", "", host + "/" + repository))
  {
    HostIsNotEmpty(host);
    hide SplitTag, SplitRegistry, IsValidTag, IsRegistryHost, Parse, LastSegment;
    JoinFree(host, "/", '@');
    JoinFree(host + "/", repository, '@');
    ParseWithout(host + "/" + repository);
    TagSplitIff(host, repository);
    SplitRegistryAt(host, repository);
    LatestIsValid();
  }

  lemma DigestIsNotEmpty(digest: string)
    requires IsValidDigest(digest)
    ensures digest != ""
  {
  }

  /** A reference that does not survive: parsed again, the repository loses what follows its colon. */
  lemma ColonBeforeDigestIsLost(digest: string)
    requires IsValidDigest(digest)
    ensures var ref, canonical := "g.io/a:b:c@" + digest, "g.io/a:b@" + digest;
            && Parse(ref) == Ok(ImageReference("g.io", "a:b", "c", digest, ref))
            && Printed(Parse(ref).value) == canonical
            && Parse(canonical) == Ok(ImageReference("g.io", "a", "b", digest, canonical))
  {
    hide Parse, IsValidDigest;
    assert IsRegistryHost("g.io") by {
      assert "g.io"[1] == '.';
    }
    DigestIsNotEmpty(digest);
    PartsParse("g.io", "a:b", "c", digest);
    PartsParse("g.io", "a", "b", digest);
    assert "g.io/a:b:c@" + digest == "g.io" + "/" + "a:b" + ":" + "c" + "@" + digest;
    assert "g.io/a:b@" + digest == "g.io" + "/" + "a" + ":" + "b" + "@" + digest;
    assert "g.io/a:b@" + digest == "g.io" + "/" + "a:b" + "@" + digest;
  }

  // ---------- Which hosts, tags and digests are let through ----------

  /** A first segment is the registry exactly if it has a dot or a colon, or is localhost. */
  lemma FirstSegmentIsHostIff(first: string, name: string)
    requires '/' !in first && '@' !in first && name != "" && '@' !in name && ':' !in name
    ensures var ref := first + "/" + name;
            Parse(ref) == Ok(if '.' in first || ':' in first || first == "localhost"
                             then ImageReference(first, name, "latest", "", ref)
                             else ImageReference("docker.io", ref, "latest", "", ref))
  {
    if '.' in first || ':' in first || first == "localhost" {
      PortOrNoTag(first, name);
    } else {
      OrganisationParses(first, name);
    }
  }

  lemma PortOrNoTag(host: string, name: string)
    requires '/' !in host && '@' !in host && name != "" && '@' !in name && ':' !in name
    requires '.' in host || ':' in host || host == "localhost"
    ensures Parse(host + "/" + name) == Ok(ImageReference(host, name, "latest", "", host + "/" + name))
  {
    assert ':' !in LastSegment(name);
    PortIsNoTag(host, name);
  }

  /** After a bare name, a tag is let through exactly if it has at most 128 characters, of the right kinds. */
  lemma TagIsLetThroughIff(name: string, tag: string)
    requires name != "" && ':' !in name && '/' !in name && '@' !in name
    requires tag != "" && ':' !in tag && '/' !in tag && '@' !in tag
    ensures var ref := name + ":" + tag;
            Parse(ref) ==
            if && |tag| <= 128 && tag[0] != '.' && tag[0] != '-'
               && forall i :: 0 <= i < |tag| ==>
                    || 'a' <= tag[i] <= 'z' || 'A' <= tag[i] <= 'Z' || '0' <= tag[i] <= '9'
                    || tag[i] == '_' || tag[i] == '.' || tag[i] == '-'
            then Ok(ImageReference("docker.io", "library/" + name, tag, "", ref))
            else Err(InvalidTag)
  {
    hide SplitTag, Parse, First;
    JoinFree(name, ":", '@');
    JoinFree(name + ":", tag, '@');
    ParseWithout(name + ":" + tag);
    SplitTagAt(name, tag);
    FirstFacts(name, '/');
  }

  /**
   After a bare name, a digest is let through exactly if it is one of the two algorithms' and long and hexadecimal.
   */
  lemma DigestIsLetThroughIff(name: string, digest: string)
    requires name != "" && ':' !in name && '/' !in name && '@' !in name
    ensures var ref := name + "@" + digest;
            Parse(ref) ==
            if && |digest| >= 39 && (digest[..7] == "sha256:" || digest[..7] == "sha512:")
               && forall i :: 7 <= i < |digest| ==> 'a' <= digest[i] <= 'f' || '0' <= digest[i] <= '9'
            then Ok(ImageReference("docker.io", "library/" + name, "", digest, ref))
            else Err(InvalidDigest)
  {
    hide SplitTag, First, Parse;
    DigestIff(digest);
    DigestSplitsOff(name, digest);
    if IsValidDigest(digest) {
      DigestIsNotEmpty(digest);
      NoColonNoTag(name);
      FirstFacts(name, '/');
      EmptyTagIsValid();
    }
  }

  lemma DigestSplitsOff(name: string, digest: string)
    requires '@' !in name
    ensures Parse(name + "@" + digest) ==
            if IsValidDigest(digest) then ParseName(name, digest, name + "@" + digest) else Err(InvalidDigest)
  {
    hide First, IsValidDigest, ParseName;
    var s := name + ['@'] + digest;
    FirstIs(name, '@', digest);
    assert s[..|name|] == name && s[|name| + 1..] == digest;
  }

  lemma DigestIff(digest: string)
    ensures IsValidDigest(digest) <==>
      && |digest| >= 39 && (digest[..7] == "sha256:" || digest[..7] == "sha512:")
      && forall i :: 7 <= i < |digest| ==> 'a' <= digest[i] <= 'f' || '0' <= digest[i] <= '9'
  {
    hide First;
    FirstFacts(digest, ':');
    assert "sha256" + ":" == "sha256:" && "sha512" + ":" == "sha512:";
    if |digest| >= 7 && (digest[..7] == "sha256:" || digest[..7] == "sha512:") {
      var algorithm, hex := digest[..6], digest[7..];
      assert digest[6] == digest[..7][6] == ':' && ':' !in algorithm;
      assert digest == algorithm + [':'] + hex;
      FirstIs(algorithm, ':', hex);
      assert algorithm == digest[..7][..6];
    }
    if First(digest, ':') == 6 && |digest| >= 7 {
      assert digest[..7] == digest[..6] + ":";
    }
  }

  /** Registry, name and tag, with a port or without. */
  lemma TaggedNameParses(host: string, name: string, tag: string)
    requires '/' !in host && '@' !in host && ('.' in host || ':' in host || host == "localhost")
    requires name != "" && '@' !in name && tag != "" && IsValidTag(tag)
    ensures var ref := host + "/" + name + ":" + tag;
            Parse(ref) == Ok(ImageReference(host, name, tag, "", ref))
  {
    TagHasNoMarks(tag);
    HostIsNotEmpty(host);
    hide SplitTag, SplitRegistry, IsValidTag, IsRegistryHost, Parse;
    var path := host + "/" + name;
    JoinFree(host, "/", '@');
    JoinFree(host + "/", name, '@');
    JoinFree(path, ":", '@');
    JoinFree(path + ":", tag, '@');
    ParseWithout(path + ":" + tag);
    SplitTagAt(path, tag);
    SplitRegistryAt(host, name);
  }

  /** A reference is valid exactly if it has a registry, a repository, a tag or a digest, and no malformed tag. */
  lemma ValidIff(r: ImageReference)
    ensures Validate(r).None? <==>
      && r.registry != "" && r.repository != "" && (r.tag != "" || r.digest != "")
      && (r.tag != "" ==>
            && |r.tag| <= 128 && r.tag[0] != '.' && r.tag[0] != '-'
            && forall i :: 0 <= i < |r.tag| ==>
                 || 'a' <= r.tag[i] <= 'z' || 'A' <= r.tag[i] <= 'Z' || '0' <= r.tag[i] <= '9'
                 || r.tag[i] == '_' || r.tag[i] == '.' || r.tag[i] == '-')
  {
  }

  /**
   Parsing refuses the empty text, and only that, as empty; it always finds a registry, and a tag or a digest.
   */
  lemma ParseAlwaysFinds(ref: string)
    ensures Parse(ref) == Err(EmptyReference) <==> ref == ""
    ensures Parse(ref) != Err(EmptyRegistry) && Parse(ref) != Err(NoTagOrDigest)
  {
    hide SplitTag, SplitRegistry, IsValidTag, First, IsRegistryHost;
    var at := First(ref, '@');
    SplitRegistryGives(SplitTag(ref[..at]).path);
    HostIsNotEmpty(SplitRegistry(SplitTag(ref[..at]).path).registry);
    assert at == |ref| ==> ref[..at] == ref;
    if at < |ref| && IsValidDigest(ref[at + 1..]) {
      DigestIsNotEmpty(ref[at + 1..]);
    }
  }

  /** A registry with nothing after its slash has no repository. */
  lemma HostAloneIsRefused(host: string, nothing: string)
    requires '/' !in host && '@' !in host && ('.' in host || ':' in host || host == "localhost") && nothing == ""
    ensures Parse(host + "/" + nothing) == Err(EmptyRepository)
  {
    HostIsNotEmpty(host);
    assert ':' !in LastSegment(nothing);
    hide SplitTag, SplitRegistry, IsValidDigest, IsValidTag, IsRegistryHost, Parse, LastSegment, First, Last;
    JoinFree(host, "/", '@');
    JoinFree(host + "/", nothing, '@');
    ParseWithout(host + "/" + nothing);
    TagSplitIff(host, nothing);
    SplitRegistryAt(host, nothing);
  }
}
