/**
 * Deep-link classification (KSUri.java).
 *
 * Each classifier first checks that the URI's host is the web endpoint's
 * host, then matches the path against one whole-string pattern. The
 * patterns are read here segment by segment: a path is split at '/', and a
 * pattern fixes how many segments there are and what each may hold. For
 * each pattern a lemma proves that the segment reading accepts exactly the
 * strings the regular expression spells out.
 */
module KSUri {
  import opened Common

  /** An android.net.Uri as far as the classifiers look at it; `query` holds each parameter's first value. */
  datatype Uri = Uri(host: string, path: string, query: map<string, string>)

  /** The Secrets.RegExpPattern matchers, which are not part of this model. */
  datatype SecretPatterns = SecretPatterns(
    androidPay1: string -> bool,
    androidPay2: string -> bool,
    api: string -> bool,
    hivequeen: string -> bool,
    staging: string -> bool)

  // ---------------------------------------------------------------------------
  // Characters and segments

  /** The class [a-zA-Z0-9_-]. */
  predicate SlugChar(c: char)
  {
    'a' <= c <= 'z' || 'A' <= c <= 'Z' || '0' <= c <= '9' || c == '-' || c == '_'
  }

  /** [a-zA-Z0-9_-]+ */
  predicate Slug(s: string)
  {
    |s| > 0 && forall i :: 0 <= i < |s| ==> SlugChar(s[i])
  }

  /** \d+ (ASCII digits: the patterns are compiled without UNICODE_CHARACTER_CLASS). */
  predicate Digits(s: string)
  {
    |s| > 0 && forall i :: 0 <= i < |s| ==> '0' <= s[i] <= '9'
  }

  /** The characters `.` does not match by default in java.util.regex. */
  predicate LineTerminator(c: char)
  {
    c == '\n' || c == '\r' || c == '\U{85}' || c == '\U{2028}' || c == '\U{2029}'
  }

  predicate NoSlash(segs: seq<string>)
  {
    forall i :: 0 <= i < |segs| ==> '/' !in segs[i]
  }

  lemma SlugHasNoSlash(s: string)
    requires Slug(s) || Digits(s)
    ensures '/' !in s
  {
    forall i | 0 <= i < |s|
      ensures s[i] != '/'
    {
      assert SlugChar(s[i]) || '0' <= s[i] <= '9';
    }
  }

  /** The pieces of `s` between slashes, in order; there is always at least one. */
  function Split(s: string): (segs: seq<string>)
    ensures |segs| >= 1 && NoSlash(segs)
  {
    if s == [] then [""]
    else if s[0] == '/' then [""] + Split(s[1..])
    else
      var t := Split(s[1..]);
      [[s[0]] + t[0]] + t[1..]
  }

  /** "/" + x for each x of `segs`, concatenated. */
  function Slashed(segs: seq<string>): string
  {
    if segs == [] then "" else "/" + segs[0] + Slashed(segs[1..])
  }

  /** The segments glued back together with '/'. */
  function Join(segs: seq<string>): string
    requires |segs| >= 1
  {
    segs[0] + Slashed(segs[1..])
  }

  lemma {:induction false} SlashedConcat(a: seq<string>, b: seq<string>)
    ensures Slashed(a + b) == Slashed(a) + Slashed(b)
  {
    if a == [] {
      assert a + b == b;
    } else {
      assert (a + b)[1..] == a[1..] + b;
      SlashedConcat(a[1..], b);
    }
  }

  lemma {:induction false} JoinSplit(s: string)
    ensures Join(Split(s)) == s
  {
    if s != [] {
      var t := Split(s[1..]);
      JoinSplit(s[1..]);
      if s[0] == '/' {
        assert ([""] + t)[1..] == t;
        assert s == "/" + s[1..];
      } else {
        assert ([[s[0]] + t[0]] + t[1..])[1..] == t[1..];
        assert s == [s[0]] + s[1..];
      }
    }
  }

  /** A slash-free prefix joins the first piece. */
  lemma {:induction false} SplitPrefix(x: string, y: string)
    requires '/' !in x
    ensures Split(x + y) == [x + Split(y)[0]] + Split(y)[1..]
  {
    if x == [] {
      assert x + y == y;
      assert x + Split(y)[0] == Split(y)[0];
    } else {
      assert (x + y)[0] == x[0] && (x + y)[1..] == x[1..] + y;
      assert x[0] != '/';
      assert Split(x + y) == [[x[0]] + Split(x[1..] + y)[0]] + Split(x[1..] + y)[1..];
      SplitPrefix(x[1..], y);
      var u := Split(y);
      var t := Split(x[1..] + y);
      assert t[0] == x[1..] + u[0] && t[1..] == u[1..];
      assert [x[0]] + (x[1..] + u[0]) == x + u[0];
    }
  }

  lemma {:induction false} SplitJoin(segs: seq<string>)
    requires |segs| >= 1 && NoSlash(segs)
    ensures Split(Join(segs)) == segs
    decreases |segs|
  {
    var rest := segs[1..];
    SplitPrefix(segs[0], Slashed(rest));
    if rest == [] {
      assert Split(Slashed(rest)) == [""];
      assert segs[0] + "" == segs[0];
    } else {
      var y := Slashed(rest);
      assert y == "/" + Join(rest);
      assert y[0] == '/' && y[1..] == Join(rest);
      SplitJoin(rest);
      assert Split(y) == [""] + rest;
      assert segs[0] + "" == segs[0];
    }
  }

  // ---------------------------------------------------------------------------
  // The discover patterns

  /** DISCOVER_CATEGORIES_PATTERN: \A/discover/categories/.* (`.` stops at line terminators). */
  predicate IsDiscoverCategoriesPath(path: string)
  {
    |path| >= 21 && path[..21] == "/discover/categories/" &&
    forall i :: 21 <= i < |path| ==> !LineTerminator(path[i])
  }

  /** DISCOVER_SCOPE_PATTERN \A/discover/([a-zA-Z0-9-_]+)\z, with `scope` equal to the group. */
  predicate IsDiscoverScopePath(path: string, scope: string)
  {
    var segs := Split(path);
    |segs| == 3 && segs[0] == "" && segs[1] == "discover" && Slug(segs[2]) && segs[2] == scope
  }

  /** DISCOVER_PLACES_PATTERN: \A/discover/places/[a-zA-Z0-9-_]+\z */
  predicate IsDiscoverPlacesPath(path: string)
  {
    var segs := Split(path);
    |segs| == 4 && segs[0] == "" && segs[1] == "discover" && segs[2] == "places" && Slug(segs[3])
  }

  lemma SlashedCons(a: string, rest: seq<string>)
    ensures Slashed([a] + rest) == "/" + a + Slashed(rest)
  {
    assert ([a] + rest)[1..] == rest;
  }

  lemma SlashedOne(a: string)
    ensures Slashed([a]) == "/" + a
  {
    assert [a][1..] == [];
  }

  lemma ScopeSegments(scope: string)
    ensures Join(["", "discover", scope]) == "/discover/" + scope
  {
    assert ["", "discover", scope][1..] == ["discover"] + [scope];
    SlashedCons("discover", [scope]);
    SlashedOne(scope);
  }

  lemma PlacesSegments(place: string)
    ensures Join(["", "discover", "places", place]) == "/discover/places/" + place
  {
    assert ["", "discover", "places", place][1..] == ["discover"] + (["places"] + [place]);
    SlashedCons("discover", ["places"] + [place]);
    SlashedCons("places", [place]);
    SlashedOne(place);
  }

  /** A scope path is exactly "/discover/" followed by the scope, which is a non-empty slug. */
  lemma DiscoverScopePathShape(path: string, scope: string)
    ensures IsDiscoverScopePath(path, scope) <==> Slug(scope) && path == "/discover/" + scope
  {
    var segs := ["", "discover", scope];
    ScopeSegments(scope);
    if IsDiscoverScopePath(path, scope) {
      JoinSplit(path);
      assert Split(path) == segs;
    }
    if Slug(scope) && path == "/discover/" + scope {
      SlugHasNoSlash(scope);
      SplitJoin(segs);
    }
  }

  /** A places path is exactly "/discover/places/" followed by one non-empty slug. */
  lemma DiscoverPlacesPathShape(path: string)
    ensures IsDiscoverPlacesPath(path) <==>
      |path| > 17 && path[..17] == "/discover/places/" && Slug(path[17..])
  {
    if IsDiscoverPlacesPath(path) {
      var place := Split(path)[3];
      assert Split(path) == ["", "discover", "places", place];
      PlacesSegments(place);
      JoinSplit(path);
      assert path == "/discover/places/" + place;
      assert path[17..] == place;
    }
    if |path| > 17 && path[..17] == "/discover/places/" && Slug(path[17..]) {
      var place := path[17..];
      PlacesSegments(place);
      assert path == "/discover/places/" + place;
      SlugHasNoSlash(place);
      SplitJoin(["", "discover", "places", place]);
    }
  }

  /** A categories path is neither a scope path (for any scope) nor a places path. */
  lemma CategoriesPathIsNoOtherDiscoverPath(path: string, scope: string)
    requires IsDiscoverCategoriesPath(path)
    ensures !IsDiscoverScopePath(path, scope)
    ensures !IsDiscoverPlacesPath(path)
  {
    DiscoverScopePathShape(path, scope);
    assert path[20] == '/' && path[10] == 'c';
    if path == "/discover/" + scope {
      assert scope[10] == '/';
    }
    DiscoverPlacesPathShape(path);
    assert path[..17] != "/discover/places/" by {
      assert path[..17][10] == 'c';
    }
  }

  // ---------------------------------------------------------------------------
  // The project patterns: /projects(/creator)?/project followed by a page

  /** The optional creator segment and the project segment. */
  datatype ProjectRef = ProjectRef(creator: Option<string>, project: string)

  predicate ValidRef(r: ProjectRef)
  {
    (r.creator.Some? ==> Slug(r.creator.value)) && Slug(r.project)
  }

  /** What follows the project segment in each of the five project patterns. */
  datatype ProjectPage =
    | ProjectHome(trailingSlash: bool)    // PROJECT_PATTERN:                 \/?
    | Updates                             // PROJECT_UPDATES_PATTERN:         \/posts
    | Update(update: string)              // PROJECT_UPDATE_PATTERN:          \/posts\/[a-zA-Z0-9-_]+
    | UpdateComments(update: string)      // PROJECT_UPDATE_COMMENTS_PATTERN: \/posts\/[a-zA-Z0-9-_]+\/comments
    | CheckoutThanks(checkout: string)    // CHECKOUT_THANKS_PATTERN:         \/checkouts\/\d+\/thanks

  datatype PageKind = HomePage | UpdatesPage | UpdatePage | CommentsPage | ThanksPage

  function KindOf(page: ProjectPage): PageKind
  {
    match page
    case ProjectHome(_) => HomePage
    case Updates => UpdatesPage
    case Update(_) => UpdatePage
    case UpdateComments(_) => CommentsPage
    case CheckoutThanks(_) => ThanksPage
  }

  predicate ValidPage(page: ProjectPage)
  {
    match page
    case Update(u) => Slug(u)
    case UpdateComments(u) => Slug(u)
    case CheckoutThanks(c) => Digits(c)
    case _ => true
  }

  /** (\/[a-zA-Z0-9_-]+)?\/[a-zA-Z0-9_-]+ : the creator, when present, then the project. */
  function RefPath(r: ProjectRef): string
  {
    (if r.creator.Some? then "/" + r.creator.value else "") + "/" + r.project
  }

  /** The part of each pattern after the project segment. */
  function PagePath(page: ProjectPage): string
  {
    match page
    case ProjectHome(slash) => if slash then "/" else ""
    case Updates => "/posts"
    case Update(u) => "/posts/" + u
    case UpdateComments(u) => "/posts/" + u + "/comments"
    case CheckoutThanks(c) => "/checkouts/" + c + "/thanks"
  }

  /** The path a project pattern describes, written out piece by piece as the regular expression reads. */
  function ProjectPath(r: ProjectRef, page: ProjectPage): string
  {
    "/projects" + RefPath(r) + PagePath(page)
  }

  function RefSegments(r: ProjectRef): seq<string>
  {
    (if r.creator.Some? then [r.creator.value] else []) + [r.project]
  }

  function PageSegments(page: ProjectPage): seq<string>
  {
    match page
    case ProjectHome(slash) => if slash then [""] else []
    case Updates => ["posts"]
    case Update(u) => ["posts", u]
    case UpdateComments(u) => ["posts", u, "comments"]
    case CheckoutThanks(c) => ["checkouts", c, "thanks"]
  }

  /** The segments after the project ref that a page of `kind` occupies at the end of `rest`. */
  function TailLength(kind: PageKind, rest: seq<string>): nat
  {
    match kind
    case HomePage => if rest != [] && rest[|rest| - 1] == "" then 1 else 0
    case UpdatesPage => 1
    case UpdatePage => 2
    case CommentsPage => 3
    case ThanksPage => 3
  }

  function PageOf(kind: PageKind, tail: seq<string>): Option<ProjectPage>
  {
    match kind
    case HomePage =>
      if tail == [] then Some(ProjectHome(false))
      else if tail == [""] then Some(ProjectHome(true))
      else None
    case UpdatesPage =>
      if tail == ["posts"] then Some(Updates) else None
    case UpdatePage =>
      if |tail| == 2 && tail[0] == "posts" && Slug(tail[1]) then Some(Update(tail[1])) else None
    case CommentsPage =>
      if |tail| == 3 && tail[0] == "posts" && Slug(tail[1]) && tail[2] == "comments"
      then Some(UpdateComments(tail[1])) else None
    case ThanksPage =>
      if |tail| == 3 && tail[0] == "checkouts" && Digits(tail[1]) && tail[2] == "thanks"
      then Some(CheckoutThanks(tail[1])) else None
  }

  function RefOf(head: seq<string>): Option<ProjectRef>
  {
    if |head| == 1 && Slug(head[0]) then Some(ProjectRef(None, head[0]))
    else if |head| == 2 && Slug(head[0]) && Slug(head[1]) then Some(ProjectRef(Some(head[0]), head[1]))
    else None
  }

  /** Matches `path` against the project pattern of `kind`, returning the pieces it captured. */
  function ParseProjectPath(path: string, kind: PageKind): Option<(ProjectRef, ProjectPage)>
  {
    var segs := Split(path);
    if |segs| < 2 || segs[0] != "" || segs[1] != "projects" then None
    else
      var rest := segs[2..];
      var k := TailLength(kind, rest);
      if k > |rest| then None
      else
        match (RefOf(rest[..|rest| - k]), PageOf(kind, rest[|rest| - k..]))
        case (Some(r), Some(page)) => Some((r, page))
        case _ => None
  }

  lemma RefPathAsSegments(r: ProjectRef)
    ensures Slashed(RefSegments(r)) == RefPath(r)
  {
    SlashedOne(r.project);
    if r.creator.Some? {
      assert RefSegments(r) == [r.creator.value] + [r.project];
      SlashedCons(r.creator.value, [r.project]);
    } else {
      assert RefSegments(r) == [r.project];
    }
  }

  lemma SlashedTwo(a: string, b: string)
    ensures Slashed([a, b]) == "/" + a + "/" + b
  {
    assert [a, b] == [a] + [b];
    SlashedCons(a, [b]);
    SlashedOne(b);
  }

  lemma SlashedThree(a: string, b: string, c: string)
    ensures Slashed([a, b, c]) == "/" + a + "/" + b + "/" + c
  {
    assert [a, b, c] == [a] + [b, c];
    SlashedCons(a, [b, c]);
    SlashedTwo(b, c);
  }

  lemma HomeSegments(slash: bool)
    ensures Slashed(PageSegments(ProjectHome(slash))) == PagePath(ProjectHome(slash))
  {
    if slash { SlashedOne(""); }
  }

  lemma UpdatesSegments()
    ensures Slashed(PageSegments(Updates)) == PagePath(Updates)
  {
    SlashedOne("posts");
  }

  lemma UpdateSegments(u: string)
    ensures Slashed(PageSegments(Update(u))) == PagePath(Update(u))
  {
    SlashedTwo("posts", u);
  }

  lemma UpdateCommentsSegments(u: string)
    ensures Slashed(PageSegments(UpdateComments(u))) == PagePath(UpdateComments(u))
  {
    SlashedThree("posts", u, "comments");
  }

  lemma CheckoutThanksSegments(c: string)
    ensures Slashed(PageSegments(CheckoutThanks(c))) == PagePath(CheckoutThanks(c))
  {
    SlashedThree("checkouts", c, "thanks");
  }

  lemma PagePathAsSegments(page: ProjectPage)
    ensures Slashed(PageSegments(page)) == PagePath(page)
  {
    match page
    case ProjectHome(slash) => HomeSegments(slash);
    case Updates => UpdatesSegments();
    case Update(u) => UpdateSegments(u);
    case UpdateComments(u) => UpdateCommentsSegments(u);
    case CheckoutThanks(c) => CheckoutThanksSegments(c);
  }

  lemma ProjectPathAsSegments(r: ProjectRef, page: ProjectPage)
    ensures ProjectPath(r, page) == Join(["", "projects"] + RefSegments(r) + PageSegments(page))
  {
    var segs := ["", "projects"] + RefSegments(r) + PageSegments(page);
    assert segs[1..] == (["projects"] + RefSegments(r)) + PageSegments(page);
    SlashedConcat(["projects"] + RefSegments(r), PageSegments(page));
    SlashedConcat(["projects"], RefSegments(r));
    SlashedOne("projects");
    RefPathAsSegments(r);
    PagePathAsSegments(page);
  }

  lemma ProjectSegmentsHaveNoSlash(r: ProjectRef, page: ProjectPage)
    requires ValidRef(r) && ValidPage(page)
    ensures NoSlash(["", "projects"] + RefSegments(r) + PageSegments(page))
  {
    SlugHasNoSlash(r.project);
    if r.creator.Some? { SlugHasNoSlash(r.creator.value); }
    match page {
      case Update(u) => SlugHasNoSlash(u);
      case UpdateComments(u) => SlugHasNoSlash(u);
      case CheckoutThanks(c) => SlugHasNoSlash(c);
      case _ =>
    }
  }

  /** The ref and the page segments come apart again at the length the page's kind occupies. */
  lemma RefAndPageSegmentsSplit(r: ProjectRef, page: ProjectPage)
    requires ValidRef(r) && ValidPage(page)
    ensures var rest := RefSegments(r) + PageSegments(page);
      var k := TailLength(KindOf(page), rest);
      k == |PageSegments(page)| && rest[..|rest| - k] == RefSegments(r) && rest[|rest| - k..] == PageSegments(page)
  {
    var rest := RefSegments(r) + PageSegments(page);
    if page.ProjectHome? && !page.trailingSlash {
      assert rest == RefSegments(r);
      assert rest[|rest| - 1] == r.project;
    }
    assert rest[..|rest| - |PageSegments(page)|] == RefSegments(r);
    assert rest[|rest| - |PageSegments(page)|..] == PageSegments(page);
  }

  lemma RefOfSegments(r: ProjectRef)
    requires ValidRef(r)
    ensures RefOf(RefSegments(r)) == Some(r)
  {
  }

  lemma PageOfSegments(page: ProjectPage)
    requires ValidPage(page)
    ensures PageOf(KindOf(page), PageSegments(page)) == Some(page)
  {
  }

  lemma RefOfSound(head: seq<string>)
    requires RefOf(head).Some?
    ensures ValidRef(RefOf(head).value) && head == RefSegments(RefOf(head).value)
  {
  }

  lemma PageOfSound(kind: PageKind, tail: seq<string>)
    requires PageOf(kind, tail).Some?
    ensures ValidPage(PageOf(kind, tail).value) && KindOf(PageOf(kind, tail).value) == kind
    ensures tail == PageSegments(PageOf(kind, tail).value)
  {
  }

  /** Every path the pattern spells out is accepted, with exactly the pieces it was built from. */
  lemma ParseProjectPathComplete(r: ProjectRef, page: ProjectPage)
    requires ValidRef(r) && ValidPage(page)
    ensures ParseProjectPath(ProjectPath(r, page), KindOf(page)) == Some((r, page))
  {
    var segs := ["", "projects"] + RefSegments(r) + PageSegments(page);
    ProjectPathAsSegments(r, page);
    ProjectSegmentsHaveNoSlash(r, page);
    SplitJoin(segs);
    assert segs[2..] == RefSegments(r) + PageSegments(page);
    RefAndPageSegmentsSplit(r, page);
    RefOfSegments(r);
    PageOfSegments(page);
  }

  /** Every accepted path is one the pattern spells out, built from the captured pieces. */
  lemma ParseProjectPathSound(path: string, kind: PageKind)
    requires ParseProjectPath(path, kind).Some?
    ensures var (r, page) := ParseProjectPath(path, kind).value;
      ValidRef(r) && ValidPage(page) && KindOf(page) == kind && path == ProjectPath(r, page)
  {
    var (r, page) := ParseProjectPath(path, kind).value;
    var segs := Split(path);
    var rest := segs[2..];
    var k := TailLength(kind, rest);
    RefOfSound(rest[..|rest| - k]);
    PageOfSound(kind, rest[|rest| - k..]);
    assert segs == ["", "projects"] + RefSegments(r) + PageSegments(page) by {
      assert segs == segs[..2] + rest[..|rest| - k] + rest[|rest| - k..];
    }
    JoinSplit(path);
    ProjectPathAsSegments(r, page);
  }

  // ---------------------------------------------------------------------------
  // The classifiers

  predicate IsKickstarterUri(uri: Uri, webEndpoint: Uri)
  {
    uri.host == webEndpoint.host
  }

  predicate IsAndroidPayUri(uri: Uri, webEndpoint: Uri, secrets: SecretPatterns)
  {
    IsKickstarterUri(uri, webEndpoint) && (secrets.androidPay1(uri.path) || secrets.androidPay2(uri.path))
  }

  predicate IsApiUri(uri: Uri, webEndpoint: Uri, secrets: SecretPatterns)
  {
    IsKickstarterUri(uri, webEndpoint) && secrets.api(uri.host)
  }

  predicate IsHivequeenUri(uri: Uri, webEndpoint: Uri, secrets: SecretPatterns)
  {
    IsKickstarterUri(uri, webEndpoint) && secrets.hivequeen(uri.host)
  }

  predicate IsStagingUri(uri: Uri, webEndpoint: Uri, secrets: SecretPatterns)
  {
    IsKickstarterUri(uri, webEndpoint) && secrets.staging(uri.host)
  }

  predicate IsProjectUri(uri: Uri, webEndpoint: Uri)
  {
    IsKickstarterUri(uri, webEndpoint) && ParseProjectPath(uri.path, HomePage).Some?
  }

  predicate IsSignupUri(uri: Uri, webEndpoint: Uri)
  {
    IsKickstarterUri(uri, webEndpoint) && uri.path == "/signup"
  }

  predicate IsCheckoutThanksUri(uri: Uri, webEndpoint: Uri)
  {
    IsKickstarterUri(uri, webEndpoint) && ParseProjectPath(uri.path, ThanksPage).Some?
  }

  predicate IsModalUri(uri: Uri, webEndpoint: Uri)
  {
    IsKickstarterUri(uri, webEndpoint) && "modal" in uri.query && uri.query["modal"] == "true"
  }

  predicate IsProjectUpdateCommentsUri(uri: Uri, webEndpoint: Uri)
  {
    IsKickstarterUri(uri, webEndpoint) && ParseProjectPath(uri.path, CommentsPage).Some?
  }

  predicate IsProjectUpdateUri(uri: Uri, webEndpoint: Uri)
  {
    IsKickstarterUri(uri, webEndpoint) && ParseProjectPath(uri.path, UpdatePage).Some?
  }

  predicate IsProjectUpdatesUri(uri: Uri, webEndpoint: Uri)
  {
    IsKickstarterUri(uri, webEndpoint) && ParseProjectPath(uri.path, UpdatesPage).Some?
  }

  predicate IsWebUri(uri: Uri, webEndpoint: Uri, secrets: SecretPatterns)
  {
    IsKickstarterUri(uri, webEndpoint) && !IsApiUri(uri, webEndpoint, secrets)
  }

  /** No classifier accepts a URI whose host is not the web endpoint's host. */
  lemma ClassifiersRequireKickstarterHost(uri: Uri, webEndpoint: Uri, secrets: SecretPatterns)
    requires uri.host != webEndpoint.host
    ensures !IsAndroidPayUri(uri, webEndpoint, secrets) && !IsApiUri(uri, webEndpoint, secrets)
    ensures !IsHivequeenUri(uri, webEndpoint, secrets) && !IsStagingUri(uri, webEndpoint, secrets)
    ensures !IsProjectUri(uri, webEndpoint) && !IsSignupUri(uri, webEndpoint)
    ensures !IsCheckoutThanksUri(uri, webEndpoint) && !IsModalUri(uri, webEndpoint)
    ensures !IsProjectUpdateCommentsUri(uri, webEndpoint) && !IsProjectUpdateUri(uri, webEndpoint)
    ensures !IsProjectUpdatesUri(uri, webEndpoint) && !IsWebUri(uri, webEndpoint, secrets)
  {
  }

  /** A Kickstarter URI is a web URI or an API URI, never both. */
  lemma WebAndApiPartition(uri: Uri, webEndpoint: Uri, secrets: SecretPatterns)
    ensures !(IsWebUri(uri, webEndpoint, secrets) && IsApiUri(uri, webEndpoint, secrets))
    ensures IsKickstarterUri(uri, webEndpoint) ==> IsWebUri(uri, webEndpoint, secrets) || IsApiUri(uri, webEndpoint, secrets)
  {
  }

  /**
   * isProjectUri holds exactly for "/projects", an optional creator segment,
   * a project segment and an optional trailing '/', on the endpoint's host.
   */
  lemma ProjectUriShape(uri: Uri, webEndpoint: Uri, r: ProjectRef, slash: bool)
    ensures IsProjectUri(uri, webEndpoint) ==>
      var (r', page) := ParseProjectPath(uri.path, HomePage).value;
      ValidRef(r') && page.ProjectHome? && uri.path == ProjectPath(r', page)
    ensures IsKickstarterUri(uri, webEndpoint) && ValidRef(r) &&
            uri.path == "/projects" + RefPath(r) + (if slash then "/" else "")
            ==> IsProjectUri(uri, webEndpoint)
  {
    if IsProjectUri(uri, webEndpoint) {
      ParseProjectPathSound(uri.path, HomePage);
    }
    if ValidRef(r) {
      ParseProjectPathComplete(r, ProjectHome(slash));
    }
  }

  /** isCheckoutThanksUri needs a non-empty all-digit id between "/checkouts/" and a final "/thanks". */
  lemma CheckoutThanksUriShape(uri: Uri, webEndpoint: Uri, r: ProjectRef, id: string)
    ensures IsCheckoutThanksUri(uri, webEndpoint) ==>
      var (r', page) := ParseProjectPath(uri.path, ThanksPage).value;
      ValidRef(r') && page.CheckoutThanks? && Digits(page.checkout) && uri.path == ProjectPath(r', page)
    ensures IsKickstarterUri(uri, webEndpoint) && ValidRef(r) && Digits(id) &&
            uri.path == "/projects" + RefPath(r) + "/checkouts/" + id + "/thanks"
            ==> IsCheckoutThanksUri(uri, webEndpoint)
  {
    if IsCheckoutThanksUri(uri, webEndpoint) {
      ParseProjectPathSound(uri.path, ThanksPage);
    }
    if ValidRef(r) && Digits(id) {
      ParseProjectPathComplete(r, CheckoutThanks(id));
      assert ProjectPath(r, CheckoutThanks(id)) == "/projects" + RefPath(r) + "/checkouts/" + id + "/thanks";
    }
  }
}
