/**
 * Which adapter each factory will build from an environment, and the production rule that refuses a mock nobody
 * meant: `packages/integrations/src/adapter-guard.ts`. The rule compares two strings per adapter, what was asked
 * for and what will be built; several of those strings are lists joined with `+`.
 */
module AdapterGuard {

  import opened Text
  import opened Wrappers

  type Env = map<string, string>

  /** What the platform's own parsers say of a port, of a URL, and of a push subject. */
  datatype Parsers = Parsers(isPort: string -> bool, isHttpUrl: string -> bool, isSubject: string -> bool)

  predicate Is(env: Env, key: string, value: string) { key in env && env[key] == value }

  /** Unset or empty: the rule of the mail and payments factories. */
  predicate Blank(env: Env, key: string) { key !in env || env[key] == "" }

  /** The stricter rule of the newer factories; an unset variable reads as an empty one. */
  function Trimmed(env: Env, key: string): string { if key in env then Trim(env[key]) else "" }

  predicate IsSet(env: Env, key: string) { Trimmed(env, key) != "" }

  // ---------------------------------------------------------------- what each factory builds

  datatype Adapter =
    | Email | Payments | Uptime | Ads | Hosting | Dns | Cms | Social | Push | Meetings | ImageGen | Screenshots | Reviews
    | SearchConsole

  const ADAPTERS: seq<Adapter> :=
    [Email, Payments, Uptime, Ads, Hosting, Dns, Cms, Social, Push, Meetings, ImageGen, Screenshots, Reviews, SearchConsole]

  const MOCK := "mock"
  const UNBUILDABLE := "unbuildable"

  /** A platform is live when all of its keys are set. */
  datatype Platform = Platform(name: string, keys: seq<string>)

  const META_KEYS := ["META_ADS_ACCESS_TOKEN", "META_ADS_APP_SECRET"]
  const AD_PLATFORMS := [
    Platform("google", ["GOOGLE_ADS_DEVELOPER_TOKEN", "GOOGLE_ADS_CLIENT_ID", "GOOGLE_ADS_CLIENT_SECRET",
      "GOOGLE_ADS_REFRESH_TOKEN", "GOOGLE_ADS_LOGIN_CUSTOMER_ID"]),
    Platform("meta", META_KEYS)]
  const SOCIAL_PLATFORMS := [Platform("meta", META_KEYS), Platform("gbp", ["GBP_CLIENT_ID", "GBP_CLIENT_SECRET", "GBP_REFRESH_TOKEN"])]
  const DNS_PLATFORMS := [Platform("hostinger", ["HOSTINGER_API_TOKEN"]), Platform("cloudflare", ["CLOUDFLARE_API_TOKEN"])]
  const ZOOM := Platform("zoom", ["ZOOM_ACCOUNT_ID", "ZOOM_CLIENT_ID", "ZOOM_CLIENT_SECRET"])

  predicate AnySet(env: Env, p: Platform) { exists k | k in p.keys :: IsSet(env, k) }
  predicate AllSet(env: Env, p: Platform) { forall k | k in p.keys :: IsSet(env, k) }

  /** Some of its keys are set, or `ADS_ADAPTER` says it is meant. */
  predicate AdsWanted(env: Env, p: Platform) { AnySet(env, p) || Trimmed(env, "ADS_ADAPTER") == p.name }

  datatype Test = Wanted | SomeKeys | AllKeys

  predicate Passes(env: Env, p: Platform, test: Test) {
    match test
    case Wanted => AdsWanted(env, p)
    case SomeKeys => AnySet(env, p)
    case AllKeys => AllSet(env, p)
  }

  /** The names of the platforms that pass, in order. */
  function Chosen(env: Env, platforms: seq<Platform>, test: Test): seq<string> {
    if platforms == [] then []
    else (if Passes(env, platforms[0], test) then [platforms[0].name] else []) + Chosen(env, platforms[1..], test)
  }

  function Shown(names: seq<string>): string { if names == [] then MOCK else Join(names, '+') }

  datatype Selection = Selection(requested: string, resolved: string)

  function Same(name: string): Selection { Selection(name, name) }

  function Requested(env: Env, key: string): string { if key in env then env[key] else MOCK }

  function Resolve(a: Adapter, env: Env, p: Parsers): Selection {
    match a
    case Email => Selection(Requested(env, "EMAIL_ADAPTER"), ResolvedEmail(env, p))
    case Payments =>
      Selection(Requested(env, "PAYMENTS_ADAPTER"),
        if Is(env, "PAYMENTS_ADAPTER", "stripe") && !Blank(env, "STRIPE_SECRET_KEY") && !Blank(env, "STRIPE_WEBHOOK_SECRET")
        then "stripe" else MOCK)
    case Uptime => Selection(Requested(env, "UPTIME_PROBE"), if Is(env, "UPTIME_PROBE", "http") then "http" else MOCK)
    case Ads => Selection(Shown(Chosen(env, AD_PLATFORMS, Wanted)), Shown(Chosen(env, AD_PLATFORMS, AllKeys)))
    case Hosting => ResolveHosting(env, p)
    case Dns => Same(Shown(Chosen(env, DNS_PLATFORMS, AllKeys)))
    case Cms => Same(if IsSet(env, "SECRETS_ENCRYPTION_KEY") then "wordpress" else MOCK)
    case Social => Selection(Shown(Chosen(env, SOCIAL_PLATFORMS, SomeKeys)), Shown(Chosen(env, SOCIAL_PLATFORMS, AllKeys)))
    case Push => ResolvePush(env, p)
    case Meetings => if !AnySet(env, ZOOM) then Same(MOCK) else Selection("zoom", if AllSet(env, ZOOM) then "zoom" else MOCK)
    case ImageGen => ResolveImageGen(env)
    case Screenshots => ResolveScreenshots(env)
    case Reviews => Same(if IsSet(env, "GOOGLE_MAPS_API_KEY") then "google-places" else MOCK)
    case SearchConsole => Same(if IsSet(env, "GSC_SERVICE_ACCOUNT_JSON") then "google" else MOCK)
  }

  function ResolvedEmail(env: Env, p: Parsers): string {
    if !Is(env, "EMAIL_ADAPTER", "smtp") then MOCK
    else if Blank(env, "SMTP_HOST") then UNBUILDABLE
    else if !Blank(env, "SMTP_PORT") && !p.isPort(env["SMTP_PORT"]) then UNBUILDABLE
    else "smtp"
  }

  function ResolveHosting(env: Env, p: Parsers): Selection {
    var url, token := Trimmed(env, "COOLIFY_API_URL"), Trimmed(env, "COOLIFY_API_TOKEN");
    if url == "" && token == "" then Same(MOCK)
    else if url == "" || token == "" then Selection("coolify", MOCK)
    else Selection("coolify", if p.isHttpUrl(url) then "coolify" else UNBUILDABLE)
  }

  function ResolvePush(env: Env, p: Parsers): Selection {
    var public, private := IsSet(env, "VAPID_PUBLIC_KEY"), IsSet(env, "VAPID_PRIVATE_KEY");
    if !public && !private then Same(MOCK)
    else if !public || !private then Selection("web-push", MOCK)
    else
      var subject := Trimmed(env, "VAPID_SUBJECT");
      Selection("web-push", if subject != "" && p.isSubject(subject) then "web-push" else UNBUILDABLE)
  }

  function ResolveImageGen(env: Env): Selection {
    var requested := Trimmed(env, "IMAGEGEN_ADAPTER");
    if requested == "" || requested == MOCK then Same(MOCK)
    else if requested != "openai" && requested != "fal" then Selection(requested, MOCK)
    else if !IsSet(env, if requested == "openai" then "OPENAI_API_KEY" else "FAL_KEY") then Selection(requested, MOCK)
    else Same(requested)
  }

  function ResolveScreenshots(env: Env): Selection {
    var requested := Trimmed(env, "SCREENSHOT_ADAPTER");
    if requested == "" || requested == MOCK then Same(MOCK)
    else if requested != "screenshotone" || !IsSet(env, "SCREENSHOTONE_ACCESS_KEY") then Selection(requested, MOCK)
    else Same(requested)
  }

  // ---------------------------------------------------------------- the loops

  function SetKeys(env: Env, keys: seq<string>): seq<string> {
    if keys == [] then []
    else (if IsSet(env, keys[0]) then [keys[0]] else []) + SetKeys(env, keys[1..])
  }

  lemma {:induction false} SetKeysAre(env: Env, keys: seq<string>)
    ensures forall k :: k in SetKeys(env, keys) <==> k in keys && IsSet(env, k)
    ensures |SetKeys(env, keys)| <= |keys|
    ensures |SetKeys(env, keys)| == |keys| <==> forall k :: k in keys ==> IsSet(env, k)
  {
    if keys != [] { SetKeysAre(env, keys[1..]); }
  }

  lemma {:induction false} ChosenAppend(env: Env, a: seq<Platform>, p: Platform, test: Test)
    ensures Chosen(env, a + [p], test) == Chosen(env, a, test) + (if Passes(env, p, test) then [p.name] else [])
  {
    if a == [] {
      assert a + [p] == [p];
    } else {
      var first := if Passes(env, a[0], test) then [a[0].name] else [];
      assert (a + [p])[0] == a[0] && (a + [p])[1..] == a[1..] + [p];
      ChosenAppend(env, a[1..], p, test);
      assert Chosen(env, a + [p], test) == first + Chosen(env, a[1..] + [p], test);
      assert Chosen(env, a, test) == first + Chosen(env, a[1..], test);
    }
  }

  ghost predicate Lacks(env: Env, platforms: seq<Platform>, test: Test, key: string) {
    exists p :: p in platforms && Passes(env, p, test) && key in p.keys && !IsSet(env, key)
  }

  /** One more platform, one more reason a key may be lacking. */
  lemma LacksAppend(env: Env, a: seq<Platform>, p: Platform, test: Test, key: string)
    ensures Lacks(env, a + [p], test, key) <==> Lacks(env, a, test, key) || (Passes(env, p, test) && key in p.keys && !IsSet(env, key))
  {
    if Passes(env, p, test) && key in p.keys && !IsSet(env, key) { assert p in a + [p]; }
    if Lacks(env, a, test, key) {
      var q :| q in a && Passes(env, q, test) && key in q.keys && !IsSet(env, key);
      assert q in a + [p];
    }
  }

  /** What is asked for, what can be built, and the keys of the former that keep it from being the latter. */
  method SelectPlatforms(env: Env, platforms: seq<Platform>, test: Test) returns (s: Selection, missing: seq<string>)
    requires test != AllKeys
    ensures s == Selection(Shown(Chosen(env, platforms, test)), Shown(Chosen(env, platforms, AllKeys)))
    ensures forall key :: key in missing <==> Lacks(env, platforms, test, key)
  {
    var requested, resolved: seq<string> := [], [];
    missing := [];
    for i := 0 to |platforms|
      invariant requested == Chosen(env, platforms[..i], test) && resolved == Chosen(env, platforms[..i], AllKeys)
      invariant forall key :: key in missing <==> Lacks(env, platforms[..i], test, key)
    {
      var platform := platforms[i];
      assert platforms[..i + 1] == platforms[..i] + [platform];
      ChosenAppend(env, platforms[..i], platform, test);
      ChosenAppend(env, platforms[..i], platform, AllKeys);
      forall key ensures Lacks(env, platforms[..i + 1], test, key) <==>
          Lacks(env, platforms[..i], test, key) || (Passes(env, platform, test) && key in platform.keys && !IsSet(env, key)) {
        LacksAppend(env, platforms[..i], platform, test, key);
      }
      var wanted, complete := Judge(env, platform, test);
      if wanted { requested := requested + [platform.name]; }
      if complete {
        resolved := resolved + [platform.name];
      } else if wanted {
        var more := Unset(env, platform.keys);
        missing := missing + more;
      }
    }
    assert platforms[..|platforms|] == platforms;
    s := Selection(Shown(requested), Shown(resolved));
  }

  /** By how many of the keys are set, and for ads by name as well. */
  method Judge(env: Env, platform: Platform, test: Test) returns (wanted: bool, complete: bool)
    requires test != AllKeys
    ensures wanted == Passes(env, platform, test) && complete == AllSet(env, platform)
  {
    var keys := SetKeys(env, platform.keys);
    SetKeysAre(env, platform.keys);
    assert |keys| > 0 ==> keys[0] in keys;
    wanted := |keys| > 0 || (test == Wanted && Trimmed(env, "ADS_ADAPTER") == platform.name);
    complete := |keys| == |platform.keys|;
  }

  method Unset(env: Env, keys: seq<string>) returns (missing: seq<string>)
    ensures forall key :: key in missing <==> key in keys && !IsSet(env, key)
  {
    missing := [];
    for i := 0 to |keys|
      invariant forall key :: key in missing <==> key in keys[..i] && !IsSet(env, key)
    {
      assert keys[..i + 1] == keys[..i] + [keys[i]];
      if !IsSet(env, keys[i]) { missing := missing + [keys[i]]; }
    }
    assert keys[..|keys|] == keys;
  }

  // ---------------------------------------------------------------- the verdict, by comparing strings

  datatype Refusal = CannotBeBuilt | FallsBackToMock | PartlyConfigured | MockRefused

  datatype Issue = Issue(adapter: Adapter, refusal: Refusal)

  /** The three whose mock is refused even when nothing was asked for. */
  predicate RefusesMock(a: Adapter) { a in {Email, Payments, Uptime} }

  function RefusalOf(a: Adapter, s: Selection, mocksAllowed: bool): Option<Refusal> {
    if s.resolved == UNBUILDABLE then Some(CannotBeBuilt)
    else if mocksAllowed then None
    else if s.requested != s.resolved then Some(if s.resolved == MOCK then FallsBackToMock else PartlyConfigured)
    else if s.resolved == MOCK && RefusesMock(a) then Some(MockRefused)
    else None
  }

  predicate InProduction(env: Env) { Is(env, "NODE_ENV", "production") }
  predicate MocksAllowed(env: Env) { Is(env, "ALLOW_MOCK_ADAPTERS", "1") }

  // ---------------------------------------------------------------- the verdict, by what the environment holds

  /** Selected, and its factory will throw. */
  predicate Unbuildable(a: Adapter, env: Env, p: Parsers) {
    match a
    case Email =>
      Is(env, "EMAIL_ADAPTER", "smtp") &&
      (Blank(env, "SMTP_HOST") || (!Blank(env, "SMTP_PORT") && !p.isPort(env["SMTP_PORT"])))
    case Hosting =>
      IsSet(env, "COOLIFY_API_URL") && IsSet(env, "COOLIFY_API_TOKEN") && !p.isHttpUrl(Trimmed(env, "COOLIFY_API_URL"))
    case Push =>
      IsSet(env, "VAPID_PUBLIC_KEY") && IsSet(env, "VAPID_PRIVATE_KEY") &&
      !(IsSet(env, "VAPID_SUBJECT") && p.isSubject(Trimmed(env, "VAPID_SUBJECT")))
    case _ => false
  }

  predicate StripeKeys(env: Env) { !Blank(env, "STRIPE_SECRET_KEY") && !Blank(env, "STRIPE_WEBHOOK_SECRET") }

  /** Half-configured or misnamed: something is set, and less than it says will be built. */
  predicate Astray(a: Adapter, env: Env) {
    match a
    case Email => "EMAIL_ADAPTER" in env && env["EMAIL_ADAPTER"] != MOCK && env["EMAIL_ADAPTER"] != "smtp"
    case Payments =>
      "PAYMENTS_ADAPTER" in env && env["PAYMENTS_ADAPTER"] != MOCK && !(env["PAYMENTS_ADAPTER"] == "stripe" && StripeKeys(env))
    case Uptime => "UPTIME_PROBE" in env && env["UPTIME_PROBE"] != MOCK && env["UPTIME_PROBE"] != "http"
    case Ads => exists p | p in AD_PLATFORMS :: AdsWanted(env, p) && !AllSet(env, p)
    case Hosting => IsSet(env, "COOLIFY_API_URL") != IsSet(env, "COOLIFY_API_TOKEN")
    case Social => exists p | p in SOCIAL_PLATFORMS :: AnySet(env, p) && !AllSet(env, p)
    case Push => IsSet(env, "VAPID_PUBLIC_KEY") != IsSet(env, "VAPID_PRIVATE_KEY")
    case Meetings => AnySet(env, ZOOM) && !AllSet(env, ZOOM)
    case ImageGen =>
      var name := Trimmed(env, "IMAGEGEN_ADAPTER");
      name != "" && name != MOCK && !(name == "openai" && IsSet(env, "OPENAI_API_KEY")) && !(name == "fal" && IsSet(env, "FAL_KEY"))
    case Screenshots =>
      var name := Trimmed(env, "SCREENSHOT_ADAPTER");
      name != "" && name != MOCK && !(name == "screenshotone" && IsSet(env, "SCREENSHOTONE_ACCESS_KEY"))
    case _ => false
  }

  /** Of the three, the ones the environment makes real. */
  predicate Real(a: Adapter, env: Env) {
    match a
    case Email => Is(env, "EMAIL_ADAPTER", "smtp")
    case Payments => Is(env, "PAYMENTS_ADAPTER", "stripe") && StripeKeys(env)
    case Uptime => Is(env, "UPTIME_PROBE", "http")
    case _ => true
  }

  predicate Refused(a: Adapter, env: Env, p: Parsers) {
    Unbuildable(a, env, p) || (!MocksAllowed(env) && (Astray(a, env) || !Real(a, env)))
  }

  // ---------------------------------------------------------------- joined strings say no less than the lists

  ghost predicate PlainNames(names: seq<string>) { AllFree(names, '+') && MOCK !in names && UNBUILDABLE !in names }

  lemma ShownApart(names: seq<string>, word: string)
    requires AllFree(names, '+') && names != [] && '+' !in word && word !in names
    ensures Join(names, '+') != word
  {
    SplitOfJoin(names, '+');
    SplitOfFree(word, '+');
    assert names != [word] by { assert names[0] in names; }
  }

  /** Two lists of plain names are shown alike only when they are the same list, and never as `unbuildable`. */
  lemma ShownIsFaithful(a: seq<string>, b: seq<string>)
    requires PlainNames(a) && PlainNames(b)
    ensures Shown(a) == Shown(b) <==> a == b
    ensures Shown(a) != UNBUILDABLE
  {
    if a != [] { ShownApart(a, MOCK); ShownApart(a, UNBUILDABLE); SplitOfJoin(a, '+'); }
    if b != [] { ShownApart(b, MOCK); SplitOfJoin(b, '+'); }
  }

  ghost predicate PlainPlatforms(platforms: seq<Platform>) {
    forall p :: p in platforms ==> '+' !in p.name && p.name != MOCK && p.name != UNBUILDABLE && p.keys != []
  }

  lemma {:induction false} ChosenIsPlain(env: Env, platforms: seq<Platform>, test: Test)
    requires PlainPlatforms(platforms)
    ensures PlainNames(Chosen(env, platforms, test))
  {
    if platforms != [] { ChosenIsPlain(env, platforms[1..], test); }
  }

  /** What is complete was asked for, so the two lists are one exactly when nothing asked for is incomplete. */
  lemma {:induction false} ChosenDiffer(env: Env, platforms: seq<Platform>, test: Test)
    requires PlainPlatforms(platforms) && test != AllKeys
    ensures var asked, built := Chosen(env, platforms, test), Chosen(env, platforms, AllKeys);
      |built| <= |asked| &&
      (asked == built <==> forall p :: p in platforms ==> (Passes(env, p, test) ==> AllSet(env, p))) &&
      (asked != built ==> |built| < |asked|)
  {
    if platforms != [] {
      var p := platforms[0];
      if AllSet(env, p) { assert p.keys[0] in p.keys && AnySet(env, p); }
      ChosenDiffer(env, platforms[1..], test);
    }
  }

  lemma JoinedVerdict(env: Env, platforms: seq<Platform>, test: Test)
    requires PlainPlatforms(platforms) && test != AllKeys
    ensures var asked, built := Shown(Chosen(env, platforms, test)), Shown(Chosen(env, platforms, AllKeys));
      built != UNBUILDABLE &&
      (asked != built <==> exists p :: p in platforms && Passes(env, p, test) && !AllSet(env, p))
  {
    ChosenIsPlain(env, platforms, test);
    ChosenIsPlain(env, platforms, AllKeys);
    ShownIsFaithful(Chosen(env, platforms, AllKeys), Chosen(env, platforms, test));
    ChosenDiffer(env, platforms, test);
  }

  // ---------------------------------------------------------------- the two verdicts are one

  /** An adapter whose selection says what the environment holds. */
  ghost predicate Told(a: Adapter, env: Env, p: Parsers) {
    var s := Resolve(a, env, p);
    (s.resolved == UNBUILDABLE <==> Unbuildable(a, env, p)) &&
    (s.resolved != UNBUILDABLE ==> (s.requested != s.resolved <==> Astray(a, env))) &&
    (s.resolved != UNBUILDABLE && RefusesMock(a) && s.requested == s.resolved ==> (s.resolved == MOCK <==> !Real(a, env)))
  }

  lemma WordsDiffer()
    ensures MOCK != UNBUILDABLE && |MOCK| == |"smtp"| == |"http"| && MOCK[0] == 'm' && "smtp"[0] == 's' && "http"[0] == 'h'
    ensures |"stripe"| == |"openai"| == 6 && |UNBUILDABLE| == 11 && |"coolify"| == 7 && |"web-push"| == 8 && |"zoom"| == 4
    ensures "zoom"[0] == 'z' && |"fal"| == 3 && |"screenshotone"| == 13 && |"wordpress"| == 9 && |"google"| == 6
  {
  }

  lemma ByNameTold(a: Adapter, env: Env, p: Parsers)
    requires RefusesMock(a)
    ensures Told(a, env, p)
  {
    WordsDiffer();
  }

  lemma AdPlatformsArePlain()
    ensures PlainPlatforms(AD_PLATFORMS)
  {
  }

  lemma SocialPlatformsArePlain()
    ensures PlainPlatforms(SOCIAL_PLATFORMS)
  {
  }

  lemma DnsPlatformsArePlain()
    ensures PlainPlatforms(DNS_PLATFORMS)
  {
  }

  lemma AdsTold(env: Env, p: Parsers)
    ensures Told(Ads, env, p)
  {
    AdPlatformsArePlain();
    JoinedVerdict(env, AD_PLATFORMS, Wanted);
  }

  lemma SocialTold(env: Env, p: Parsers)
    ensures Told(Social, env, p)
  {
    SocialPlatformsArePlain();
    JoinedVerdict(env, SOCIAL_PLATFORMS, SomeKeys);
  }

  lemma DnsTold(env: Env, p: Parsers)
    ensures Told(Dns, env, p)
  {
    DnsPlatformsArePlain();
    JoinedVerdict(env, DNS_PLATFORMS, SomeKeys);
  }

  lemma RestTold(a: Adapter, env: Env, p: Parsers)
    requires !RefusesMock(a) && a !in {Ads, Social, Dns}
    ensures Told(a, env, p)
  {
    WordsDiffer();
    match a
    case ImageGen =>
    case Screenshots =>
    case Meetings =>
    case _ =>
  }

  lemma IsTold(a: Adapter, env: Env, p: Parsers)
    ensures Told(a, env, p)
  {
    if RefusesMock(a) { ByNameTold(a, env, p); }
    else if a == Ads { AdsTold(env, p); }
    else if a == Social { SocialTold(env, p); }
    else if a == Dns { DnsTold(env, p); }
    else { RestTold(a, env, p); }
  }

  /** The comparison of strings refuses exactly what is unbuildable, astray, or a mock of the three that must be real. */
  lemma VerdictsAgree(a: Adapter, env: Env, p: Parsers)
    ensures RefusalOf(a, Resolve(a, env, p), MocksAllowed(env)).Some? <==> Refused(a, env, p)
  {
    IsTold(a, env, p);
  }

  // ---------------------------------------------------------------- every reason not to boot

  function RefusalIn(a: Adapter, env: Env, p: Parsers): Option<Refusal> {
    if InProduction(env) then RefusalOf(a, Resolve(a, env, p), MocksAllowed(env)) else None
  }

  function IssueOf(a: Adapter, refusal: Option<Refusal>): seq<Issue> {
    if refusal.Some? then [Issue(a, refusal.value)] else []
  }

  function Issues(adapters: seq<Adapter>, env: Env, p: Parsers): seq<Issue> {
    if adapters == [] then [] else IssueOf(adapters[0], RefusalIn(adapters[0], env, p)) + Issues(adapters[1..], env, p)
  }

  lemma {:induction false} IssuesAppend(a: seq<Adapter>, b: Adapter, refusal: Option<Refusal>, env: Env, p: Parsers)
    requires refusal == RefusalIn(b, env, p)
    ensures Issues(a + [b], env, p) == Issues(a, env, p) + IssueOf(b, refusal)
  {
    if a == [] {
      assert a + [b] == [b];
    } else {
      assert (a + [b])[0] == a[0] && (a + [b])[1..] == a[1..] + [b];
      IssuesAppend(a[1..], b, refusal, env, p);
    }
  }

  ghost predicate Named(issues: seq<Issue>, a: Adapter) { exists i :: i in issues && i.adapter == a }

  lemma NamedInEither(left: seq<Issue>, right: seq<Issue>, a: Adapter)
    ensures Named(left + right, a) <==> Named(left, a) || Named(right, a)
  {
    if Named(left, a) {
      var i :| i in left && i.adapter == a;
      assert i in left + right;
    }
    if Named(right, a) {
      var i :| i in right && i.adapter == a;
      assert i in left + right;
    }
  }

  lemma {:induction false} IssuesAre(adapters: seq<Adapter>, env: Env, p: Parsers, a: Adapter)
    ensures Named(Issues(adapters, env, p), a) <==> a in adapters && InProduction(env) && Refused(a, env, p)
  {
    if adapters != [] {
      var refusal := RefusalIn(adapters[0], env, p);
      var first := IssueOf(adapters[0], refusal);
      VerdictsAgree(adapters[0], env, p);
      IssuesAre(adapters[1..], env, p, a);
      NamedInEither(first, Issues(adapters[1..], env, p), a);
      if refusal.Some? { assert Issue(adapters[0], refusal.value) in first; }
    }
  }

  lemma EveryAdapterIsListed(a: Adapter)
    ensures a in ADAPTERS
  {
    assert a == ADAPTERS[match a
      case Email => 0 case Payments => 1 case Uptime => 2 case Ads => 3 case Hosting => 4 case Dns => 5 case Cms => 6
      case Social => 7 case Push => 8 case Meetings => 9 case ImageGen => 10 case Screenshots => 11 case Reviews => 12
      case SearchConsole => 13];
  }

  /** Nothing an operator could have meant to do differently: buildable, and without the opt-out complete and real. */
  ghost predicate FitForProduction(env: Env, p: Parsers) {
    (forall a: Adapter :: !Unbuildable(a, env, p)) &&
    (("ALLOW_MOCK_ADAPTERS" in env && env["ALLOW_MOCK_ADAPTERS"] == "1") ||
     ((forall a: Adapter :: !Astray(a, env)) && Real(Email, env) && Real(Payments, env) && Real(Uptime, env)))
  }

  /** One issue for each adapter that must not boot a production process, in the order they are listed, and no other. */
  method ProductionAdapterIssues(env: Env, p: Parsers) returns (issues: seq<Issue>)
    ensures issues == Issues(ADAPTERS, env, p)
    ensures forall a :: Named(issues, a) <==> InProduction(env) && Refused(a, env, p)
  {
    issues := [];
    if InProduction(env) {
      var mocksAllowed := MocksAllowed(env);
      for i := 0 to |ADAPTERS|
        invariant issues == Issues(ADAPTERS[..i], env, p)
      {
        var adapter := ADAPTERS[i];
        assert ADAPTERS[..i + 1] == ADAPTERS[..i] + [adapter];
        var refusal := Refuse(adapter, Resolve(adapter, env, p), mocksAllowed);
        IssuesAppend(ADAPTERS[..i], adapter, refusal, env, p);
        if refusal.Some? { issues := issues + [Issue(adapter, refusal.value)]; }
      }
    } else {
      NothingOutsideProduction(ADAPTERS, env, p);
    }
    assert ADAPTERS[..|ADAPTERS|] == ADAPTERS;
    forall a ensures Named(issues, a) <==> InProduction(env) && Refused(a, env, p) {
      EveryAdapterIsListed(a);
      IssuesAre(ADAPTERS, env, p, a);
    }
  }

  lemma {:induction false} NothingOutsideProduction(adapters: seq<Adapter>, env: Env, p: Parsers)
    requires !InProduction(env)
    ensures Issues(adapters, env, p) == []
  {
    if adapters != [] { NothingOutsideProduction(adapters[1..], env, p); }
  }

  /** The body of the loop, a branch at a time. */
  method Refuse(a: Adapter, s: Selection, mocksAllowed: bool) returns (refusal: Option<Refusal>)
    ensures refusal == RefusalOf(a, s, mocksAllowed)
  {
    if s.resolved == UNBUILDABLE { return Some(CannotBeBuilt); }
    if mocksAllowed { return None; }
    if s.requested != s.resolved { return Some(if s.resolved == MOCK then FallsBackToMock else PartlyConfigured); }
    if s.resolved != MOCK { return None; }
    return if RefusesMock(a) then Some(MockRefused) else None;
  }

  /** A production process boots exactly when its environment is fit. */
  lemma NoIssuesExactly(env: Env, p: Parsers)
    ensures Issues(ADAPTERS, env, p) == [] <==>
      ("NODE_ENV" in env && env["NODE_ENV"] == "production" ==> FitForProduction(env, p))
  {
    var issues := Issues(ADAPTERS, env, p);
    if !InProduction(env) {
      NothingOutsideProduction(ADAPTERS, env, p);
    } else if issues == [] {
      forall a: Adapter ensures !Unbuildable(a, env, p) && (MocksAllowed(env) || (!Astray(a, env) && Real(a, env))) {
        EveryAdapterIsListed(a);
        IssuesAre(ADAPTERS, env, p, a);
      }
    } else {
      var a := issues[0].adapter;
      IssuesAre(ADAPTERS, env, p, a);
      assert issues[0] in issues && Named(issues, a);
      assert a in {Email, Payments, Uptime} || Real(a, env);
    }
  }

  // ---------------------------------------------------------------- mocks that are only logged

  /** Something real is built, if only in part. */
  predicate Live(a: Adapter, env: Env) {
    match a
    case Ads => exists q | q in AD_PLATFORMS :: AllSet(env, q)
    case Hosting => IsSet(env, "COOLIFY_API_URL") && IsSet(env, "COOLIFY_API_TOKEN")
    case Dns => exists q | q in DNS_PLATFORMS :: AllSet(env, q)
    case Cms => IsSet(env, "SECRETS_ENCRYPTION_KEY")
    case Social => exists q | q in SOCIAL_PLATFORMS :: AllSet(env, q)
    case Push => IsSet(env, "VAPID_PUBLIC_KEY") && IsSet(env, "VAPID_PRIVATE_KEY")
    case Meetings => AllSet(env, ZOOM)
    case ImageGen =>
      var name := Trimmed(env, "IMAGEGEN_ADAPTER");
      (name == "openai" && IsSet(env, "OPENAI_API_KEY")) || (name == "fal" && IsSet(env, "FAL_KEY"))
    case Screenshots => Trimmed(env, "SCREENSHOT_ADAPTER") == "screenshotone" && IsSet(env, "SCREENSHOTONE_ACCESS_KEY")
    case Reviews => IsSet(env, "GOOGLE_MAPS_API_KEY")
    case SearchConsole => IsSet(env, "GSC_SERVICE_ACCOUNT_JSON")
    case _ => Real(a, env)
  }

  lemma {:induction false} ChosenIsEmpty(env: Env, platforms: seq<Platform>)
    ensures Chosen(env, platforms, AllKeys) == [] <==> forall q :: q in platforms ==> !AllSet(env, q)
  {
    if platforms != [] { ChosenIsEmpty(env, platforms[1..]); }
  }

  /** A joined list reads `mock` exactly when no platform is complete. */
  lemma ShownAsMock(env: Env, platforms: seq<Platform>)
    requires PlainPlatforms(platforms)
    ensures Shown(Chosen(env, platforms, AllKeys)) == MOCK <==> forall q :: q in platforms ==> !AllSet(env, q)
    ensures Shown(Chosen(env, platforms, AllKeys)) != UNBUILDABLE
  {
    var names := Chosen(env, platforms, AllKeys);
    ChosenIsEmpty(env, platforms);
    ChosenIsPlain(env, platforms, AllKeys);
    ShownIsFaithful(names, []);
  }

  predicate Warned(a: Adapter, env: Env, p: Parsers) { InProduction(env) && Resolve(a, env, p).resolved == MOCK }

  /** The four messages are told apart by what the environment holds, not by the strings compared. */
  lemma RefusalSaysWhich(a: Adapter, env: Env, p: Parsers, refusal: Refusal)
    requires RefusalIn(a, env, p) == Some(refusal)
    ensures refusal.CannotBeBuilt? <==> Unbuildable(a, env, p)
    ensures refusal.FallsBackToMock? ==> Astray(a, env) && !Live(a, env)
    ensures refusal.PartlyConfigured? ==> Astray(a, env) && Live(a, env)
    ensures refusal.MockRefused? ==> RefusesMock(a) && !Astray(a, env) && !Live(a, env)
  {
    WarnedExactly(a, env, p);
    IsTold(a, env, p);
  }

  lemma JoinedWarned(a: Adapter, env: Env, p: Parsers)
    requires a in {Ads, Dns, Social}
    ensures Resolve(a, env, p).resolved == MOCK <==> !Live(a, env)
  {
    match a
    case Ads =>
      AdPlatformsArePlain();
      ShownAsMock(env, AD_PLATFORMS);
    case Dns =>
      DnsPlatformsArePlain();
      ShownAsMock(env, DNS_PLATFORMS);
    case Social =>
      SocialPlatformsArePlain();
      ShownAsMock(env, SOCIAL_PLATFORMS);
  }

  lemma NamedWarned(a: Adapter, env: Env, p: Parsers)
    requires a in {Email, Payments, Uptime, ImageGen, Screenshots}
    ensures Resolve(a, env, p).resolved == MOCK <==> !Live(a, env) && !Unbuildable(a, env, p)
  {
    WordsDiffer();
  }

  lemma KeyedWarned(a: Adapter, env: Env, p: Parsers)
    requires a in {Hosting, Cms, Push, Meetings, Reviews, SearchConsole}
    ensures Resolve(a, env, p).resolved == MOCK <==> !Live(a, env) && !Unbuildable(a, env, p)
  {
    WordsDiffer();
    if AllSet(env, ZOOM) { assert ZOOM.keys[0] in ZOOM.keys; }
  }

  /**
   * A mock is warned about exactly when nothing of the adapter is real: every adapter of a production process is
   * live, refused as unbuildable, or named in the log; and one whose other half is live is not named.
   */
  lemma WarnedExactly(a: Adapter, env: Env, p: Parsers)
    requires InProduction(env)
    ensures Warned(a, env, p) <==> !Live(a, env) && !Unbuildable(a, env, p)
  {
    if a in {Ads, Dns, Social} { JoinedWarned(a, env, p); }
    else if a in {Email, Payments, Uptime, ImageGen, Screenshots} { NamedWarned(a, env, p); }
    else { KeyedWarned(a, env, p); }
  }

  // ---------------------------------------------------------------- blank and unset

  /** The variables whose factories look no further than for a character. */
  const UNTRIMMED := {"SMTP_HOST", "SMTP_PORT", "STRIPE_SECRET_KEY", "STRIPE_WEBHOOK_SECRET"}

  /** A variable that was unset is given nothing, or, where white space is trimmed, nothing but that. */
  ghost predicate SaysNothing(env: Env, key: string, value: string) {
    key !in env && (forall c :: c in value ==> Space(c)) && (value == "" || key !in UNTRIMMED)
  }

  lemma {:induction false} SpacesAreTrimmed(value: string)
    requires forall c :: c in value ==> Space(c)
    ensures TrimStart(value) == ""
  {
    if value != "" {
      assert value[0] in value;
      SpacesAreTrimmed(value[1..]);
    }
  }

  lemma SetWithBlank(env: Env, key: string, value: string, k: string)
    requires SaysNothing(env, key, value)
    ensures Trimmed(env[key := value], k) == Trimmed(env, k) && (k in UNTRIMMED ==> Blank(env[key := value], k) == Blank(env, k))
  {
    SpacesAreTrimmed(value);
    assert Trim(value) == "";
  }

  lemma PlatformsWithBlank(env: Env, key: string, value: string, q: Platform)
    requires SaysNothing(env, key, value)
    ensures AnySet(env[key := value], q) == AnySet(env, q) && AllSet(env[key := value], q) == AllSet(env, q)
    ensures AdsWanted(env[key := value], q) == AdsWanted(env, q)
  {
    forall k ensures Trimmed(env[key := value], k) == Trimmed(env, k) { SetWithBlank(env, key, value, k); }
  }

  lemma ByNameWithBlank(env: Env, key: string, value: string, a: Adapter)
    requires SaysNothing(env, key, value) && RefusesMock(a)
    ensures var blank := env[key := value]; (Astray(a, blank) || !Real(a, blank)) == (Astray(a, env) || !Real(a, env))
  {
    SetWithBlank(env, key, value, "STRIPE_SECRET_KEY");
    SetWithBlank(env, key, value, "STRIPE_WEBHOOK_SECRET");
    NothingIsNoWord(value);
  }

  lemma PlatformsAstrayWithBlank(env: Env, key: string, value: string, a: Adapter)
    requires SaysNothing(env, key, value) && a in {Ads, Social, Meetings}
    ensures Astray(a, env[key := value]) == Astray(a, env)
  {
    forall q: Platform ensures AnySet(env[key := value], q) == AnySet(env, q) && AllSet(env[key := value], q) == AllSet(env, q) &&
        AdsWanted(env[key := value], q) == AdsWanted(env, q) {
      PlatformsWithBlank(env, key, value, q);
    }
  }

  lemma RestWithBlank(env: Env, key: string, value: string, a: Adapter)
    requires SaysNothing(env, key, value) && !RefusesMock(a) && a !in {Ads, Social, Meetings}
    ensures Astray(a, env[key := value]) == Astray(a, env)
  {
    match a
    case Hosting =>
      SetWithBlank(env, key, value, "COOLIFY_API_URL");
      SetWithBlank(env, key, value, "COOLIFY_API_TOKEN");
    case Push =>
      SetWithBlank(env, key, value, "VAPID_PUBLIC_KEY");
      SetWithBlank(env, key, value, "VAPID_PRIVATE_KEY");
    case ImageGen =>
      SetWithBlank(env, key, value, "IMAGEGEN_ADAPTER");
      SetWithBlank(env, key, value, "OPENAI_API_KEY");
      SetWithBlank(env, key, value, "FAL_KEY");
    case Screenshots =>
      SetWithBlank(env, key, value, "SCREENSHOT_ADAPTER");
      SetWithBlank(env, key, value, "SCREENSHOTONE_ACCESS_KEY");
    case _ =>
  }

  lemma UnbuildableWithBlank(env: Env, key: string, value: string, a: Adapter, p: Parsers)
    requires SaysNothing(env, key, value)
    ensures Unbuildable(a, env[key := value], p) == Unbuildable(a, env, p)
  {
    forall k ensures Trimmed(env[key := value], k) == Trimmed(env, k) { SetWithBlank(env, key, value, k); }
    SetWithBlank(env, key, value, "SMTP_HOST");
    SetWithBlank(env, key, value, "SMTP_PORT");
    NothingIsNoWord(value);
  }

  lemma NothingIsNoWord(value: string)
    requires forall c :: c in value ==> Space(c)
    ensures value != "smtp" && value != MOCK && value != "stripe" && value != "http" && value != "production" && value != "1"
  {
    assert "smtp"[0] == 's' && MOCK[0] == 'm' && "stripe"[0] == 's' && "http"[0] == 'h' && "production"[0] == 'p' && "1"[0] == '1';
    assert value != "" ==> value[0] in value;
    WordsDiffer();
  }

  /**
   * A variable created and left empty is refused exactly when leaving it out would have been, and so is one of white space
   * only, but for the four that are not trimmed.
   */
  lemma BlankIsUnset(env: Env, key: string, value: string, a: Adapter, p: Parsers)
    requires SaysNothing(env, key, value)
    ensures RefusalIn(a, env[key := value], p).Some? == RefusalIn(a, env, p).Some?
  {
    UnbuildableWithBlank(env, key, value, a, p);
    if RefusesMock(a) { ByNameWithBlank(env, key, value, a); }
    else if a in {Ads, Social, Meetings} { PlatformsAstrayWithBlank(env, key, value, a); }
    else { RestWithBlank(env, key, value, a); }
    SwitchesWithBlank(env, key, value);
    VerdictsAgree(a, env, p);
    VerdictsAgree(a, env[key := value], p);
  }

  lemma SwitchesWithBlank(env: Env, key: string, value: string)
    requires SaysNothing(env, key, value)
    ensures InProduction(env[key := value]) == InProduction(env) && MocksAllowed(env[key := value]) == MocksAllowed(env)
  {
    NothingIsNoWord(value);
  }

  /** Those four are another matter: a host of one space is a host. */
  lemma SpaceIsAHost(env: Env, p: Parsers)
    requires Is(env, "EMAIL_ADAPTER", "smtp") && "SMTP_HOST" !in env && Blank(env, "SMTP_PORT")
    ensures Unbuildable(Email, env, p) && !Unbuildable(Email, env["SMTP_HOST" := " "], p)
  {
  }

  // ---------------------------------------------------------------- names that are not names

  lemma OtherKeys(env: Env, name: string, q: Platform)
    requires q in AD_PLATFORMS
    ensures var named := env["ADS_ADAPTER" := name]; AnySet(named, q) == AnySet(env, q) && AllSet(named, q) == AllSet(env, q)
  {
    assert forall k :: k in q.keys ==> k[0] != 'A';
    assert forall k :: k in q.keys ==> Trimmed(env["ADS_ADAPTER" := name], k) == Trimmed(env, k);
  }

  lemma AdsAstrayWhenNamed(env: Env, name: string)
    requires "ADS_ADAPTER" !in env
    ensures Astray(Ads, env["ADS_ADAPTER" := name]) <==>
      Astray(Ads, env) || exists q :: q in AD_PLATFORMS && q.name == Trim(name) && !AllSet(env, q)
  {
    forall q | q in AD_PLATFORMS ensures var named := env["ADS_ADAPTER" := name];
        AnySet(named, q) == AnySet(env, q) && AllSet(named, q) == AllSet(env, q) && q.name != "" {
      OtherKeys(env, name, q);
    }
  }

  /**
   * `ADS_ADAPTER` is heard only when it says `google` or `meta`: any other value, a typo included, leaves the verdict
   * on the ads adapter as it was, where `IMAGEGEN_ADAPTER` refuses what it does not know.
   */
  lemma AdsNameIsHeard(env: Env, name: string, p: Parsers)
    requires "ADS_ADAPTER" !in env && InProduction(env) && !MocksAllowed(env)
    ensures RefusalIn(Ads, env["ADS_ADAPTER" := name], p).Some? <==>
      RefusalIn(Ads, env, p).Some? || exists q :: q in AD_PLATFORMS && q.name == Trim(name) && !AllSet(env, q)
  {
    AdsAstrayWhenNamed(env, name);
    VerdictsAgree(Ads, env, p);
    VerdictsAgree(Ads, env["ADS_ADAPTER" := name], p);
  }

  /** A generator nobody knows is a refusal, and the words are those of a fall back to the mock. */
  lemma UnknownGeneratorIsRefused(env: Env, name: string, p: Parsers)
    requires InProduction(env) && !MocksAllowed(env) && Trim(name) !in {"", MOCK, "openai", "fal"}
    ensures RefusalIn(ImageGen, env["IMAGEGEN_ADAPTER" := name], p) == Some(FallsBackToMock)
  {
    WordsDiffer();
  }
}
