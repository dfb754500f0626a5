/**
 * The browser-side cookie adapter of the Supabase client: reading
 * `document.cookie` into name/value pairs, writing each cookie to set as one
 * `Set-Cookie`-style line, and the memoised client.
 *
 * The attributes written are the cookie attributes of section 4.1.1 of
 * RFC 6265 plus SameSite, an extension attribute, and they come in the order
 * the serialiser pushes them: Path, Domain, Secure, HttpOnly, SameSite,
 * Max-Age, Expires.
 */
module BrowserCookies {
  import opened Wrappers
  import opened Text
  import opened Seqs

  /** `{ name, value }` */
  datatype Cookie = Cookie(name: string, value: string)

  /** `name=value` */
  function Pair(name: string, value: string): string {
    name + "=" + value
  }

  /** One trimmed entry, split at its first `=`; an entry without `=` is a name with an empty value. */
  function ParseEntry(entry: string): (c: Cookie)
    ensures '=' !in c.name
    ensures '=' in entry ==> entry == Pair(c.name, c.value)
    ensures '=' !in entry ==> c == Cookie(entry, "")
  {
    var i := IndexOf(entry, '=');
    if i == -1 then Cookie(entry, "")
    else
      assert entry == entry[..i] + "=" + entry[i + 1..];
      Cookie(entry[..i], entry[i + 1..])
  }

  /** The entry of a pair whose name has no `=` reads back as that pair; the value may hold `=`. */
  lemma ParsePair(name: string, value: string)
    requires '=' !in name
    ensures ParseEntry(Pair(name, value)) == Cookie(name, value)
  {
    IndexOfAfter(name, '=', value);
    var s := Pair(name, value);
    assert s[..|name|] == name && s[|name| + 1..] == value;
  }

  /** `.filter(Boolean)` on strings */
  predicate NonEmpty(s: string) {
    s != []
  }

  /** `cookie.split(";").map((entry) => entry.trim())` */
  function Entries(cookie: string): (entries: seq<string>)
    ensures |entries| == |Split(cookie, ';')|
    ensures forall i :: 0 <= i < |entries| ==> IsTrimmed(entries[i])
  {
    Map(Trim, Split(cookie, ';'))
  }

  /**
   * `parseDocumentCookies`: `document` is `document.cookie`, or None when
   * there is no document.
   */
  function ParseDocumentCookies(document: Option<string>): (cookies: seq<Cookie>)
    ensures document.None? || document.value == [] ==> cookies == []
    ensures document.Some? ==> |cookies| <= |Split(document.value, ';')|
    ensures forall i :: 0 <= i < |cookies| ==> '=' !in cookies[i].name
  {
    if document.None? || document.value == [] then []
    else Map(ParseEntry, Filter(NonEmpty, Entries(document.value)))
  }

  /** The entries of two strings joined by `;` are the entries of the first, then those of the second. */
  lemma EntriesConcat(a: string, b: string)
    ensures Entries(a + ";" + b) == Entries(a) + Entries(b)
  {
    SplitConcat(a, b, ';');
    MapAppend(Trim, Split(a, ';'), Split(b, ';'));
  }

  /** A space after a separator does not change the entries. */
  lemma EntriesLeadingSpace(s: string)
    ensures Entries(" " + s) == Entries(s)
  {
    var pieces := Split(s, ';');
    SplitPrefix(" ", s, ';');
    assert Split(" " + s, ';') == [" " + pieces[0]] + pieces[1..];
    TrimLeadingWhitespace(' ', pieces[0]);
    assert Trim(" " + pieces[0]) == Trim(pieces[0]);
    assert pieces == [pieces[0]] + pieces[1..];
    MapAppend(Trim, [" " + pieces[0]], pieces[1..]);
    MapAppend(Trim, [pieces[0]], pieces[1..]);
  }

  /** The parse of the entries of `s`, with the empty string's case folded in. */
  lemma ParseOfEntries(s: string)
    ensures ParseDocumentCookies(Some(s)) == Map(ParseEntry, Filter(NonEmpty, Entries(s)))
  {
    if s == [] {
      assert Split(s, ';') == [[]];
      assert Entries(s) == [Trim([])];
    }
  }

  /**
   * Parsing two cookie strings joined by `;` gives the cookies of the first,
   * then those of the second: entries keep their order, and an empty entry
   * adds nothing.
   */
  lemma ParseConcat(a: string, b: string)
    ensures ParseDocumentCookies(Some(a + ";" + b)) ==
      ParseDocumentCookies(Some(a)) + ParseDocumentCookies(Some(b))
  {
    ParseOfEntries(a);
    ParseOfEntries(b);
    ParseOfEntries(a + ";" + b);
    EntriesConcat(a, b);
    FilterAppend(NonEmpty, Entries(a), Entries(b));
    MapAppend(ParseEntry, Filter(NonEmpty, Entries(a)), Filter(NonEmpty, Entries(b)));
  }

  /**
   * A string without `;` is one entry: nothing when it trims to empty,
   * otherwise the pair split from its trimmed text.
   */
  lemma ParseSingle(entry: string)
    requires ';' !in entry
    ensures ParseDocumentCookies(Some(entry)) ==
      if Trim(entry) == [] then [] else [ParseEntry(Trim(entry))]
  {
    ParseOfEntries(entry);
    SplitWhole(entry, ';');
    assert Entries(entry) == [Trim(entry)];
  }

  /** A cookie as the browser lists it: a name with no separator or padding, a value with no `;`. */
  predicate Listable(c: Cookie) {
    c.name != [] && IsTrimmed(c.name) && '=' !in c.name && ';' !in c.name &&
    IsTrimmed(c.value) && ';' !in c.value
  }

  /** `document.cookie` as the browser renders a cookie list: the pairs joined by `"; "`. */
  function DocumentCookie(cookies: seq<Cookie>): string {
    if cookies == [] then []
    else if |cookies| == 1 then Pair(cookies[0].name, cookies[0].value)
    else Pair(cookies[0].name, cookies[0].value) + "; " + DocumentCookie(cookies[1..])
  }

  /** One listed cookie's pair parses back to that cookie. */
  lemma ParseListed(c: Cookie)
    requires Listable(c)
    ensures ParseDocumentCookies(Some(Pair(c.name, c.value))) == [c]
  {
    var entry := Pair(c.name, c.value);
    assert entry[0] == c.name[0];
    assert entry[|entry| - 1] == if c.value == [] then '=' else c.value[|c.value| - 1];
    assert ';' !in entry;
    ParseSingle(entry);
    TrimTrimmed(entry);
    ParsePair(c.name, c.value);
  }

  /** The space the browser writes after each `;` is trimmed away. */
  lemma ParseSpaced(s: string)
    ensures ParseDocumentCookies(Some(" " + s)) == ParseDocumentCookies(Some(s))
  {
    ParseOfEntries(" " + s);
    ParseOfEntries(s);
    EntriesLeadingSpace(s);
  }

  /** A listed cookie in front of `"; "` and more text is read first, then the rest. */
  lemma ParseCons(c: Cookie, rest: string)
    requires Listable(c)
    ensures ParseDocumentCookies(Some(Pair(c.name, c.value) + "; " + rest)) ==
      [c] + ParseDocumentCookies(Some(rest))
  {
    var entry := Pair(c.name, c.value);
    assert entry + "; " + rest == entry + ";" + (" " + rest);
    ParseConcat(entry, " " + rest);
    ParseListed(c);
    ParseSpaced(rest);
  }

  /** Reading back a rendered cookie list gives the cookies, in order. */
  lemma {:induction false} ParseRoundTrip(cookies: seq<Cookie>)
    requires forall i :: 0 <= i < |cookies| ==> Listable(cookies[i])
    ensures ParseDocumentCookies(Some(DocumentCookie(cookies))) == cookies
    decreases |cookies|
  {
    if |cookies| == 1 {
      ParseListed(cookies[0]);
    } else if |cookies| > 1 {
      ParseCons(cookies[0], DocumentCookie(cookies[1..]));
      ParseRoundTrip(cookies[1..]);
      assert cookies == [cookies[0]] + cookies[1..];
    }
  }

  /** `options.sameSite`: not given, a string, or a boolean. */
  datatype SameSite = Unset | Named(text: string) | Flag(on: bool)

  /**
   * The options of one cookie to set; an absent `options` object has every
   * field absent. `expires` is the already formatted date, present exactly
   * when the option is truthy; `secure` and `httpOnly` are their truthiness.
   */
  datatype CookieOptions = CookieOptions(
    path: Option<string>,
    domain: Option<string>,
    secure: bool,
    httpOnly: bool,
    sameSite: SameSite,
    maxAge: Option<int>,
    expires: Option<string>)

  datatype CookieToSet = CookieToSet(name: string, value: string, options: CookieOptions)

  /** The attributes the serialiser writes: those of section 4.1.1 of RFC 6265, and the SameSite extension attribute. */
  datatype Attribute =
    | PathAttr(path: string)
    | DomainAttr(domain: string)
    | SecureAttr
    | HttpOnlyAttr
    | SameSiteAttr(policy: string)
    | MaxAgeAttr(seconds: int)
    | ExpiresAttr(date: string)

  /** The position of an attribute kind in the written order. */
  function Rank(a: Attribute): nat {
    match a
    case PathAttr(_) => 0
    case DomainAttr(_) => 1
    case SecureAttr => 2
    case HttpOnlyAttr => 3
    case SameSiteAttr(_) => 4
    case MaxAgeAttr(_) => 5
    case ExpiresAttr(_) => 6
  }

  function Render(a: Attribute): string {
    match a
    case PathAttr(p) => "Path=" + p
    case DomainAttr(d) => "Domain=" + d
    case SecureAttr => "Secure"
    case HttpOnlyAttr => "HttpOnly"
    case SameSiteAttr(v) => "SameSite=" + v
    case MaxAgeAttr(n) => "Max-Age=" + IntToDecimal(n)
    case ExpiresAttr(t) => "Expires=" + t
  }

  /**
   * The SameSite value written, if any: the option defaulted to `"lax"`, a
   * truthy non-string read as `"Lax"`, with its first character upper-cased
   * and the rest lower-cased; a falsy value writes nothing.
   */
  function SameSitePolicy(s: SameSite): (policy: Option<string>)
    ensures s.Unset? || s == Flag(true) ==> policy == Some("Lax")
    ensures s == Flag(false) || s == Named([]) ==> policy == None
    ensures s.Named? && s.text != [] ==>
      (policy.Some? && |policy.value| == |s.text| && policy.value[0] == UpperChar(s.text[0]) &&
       forall i :: 1 <= i < |s.text| ==> policy.value[i] == LowerChar(s.text[i]))
  {
    match s
    case Unset => Some("Lax")
    case Named(text) => if text == [] then None else Some(Capitalize(text))
    case Flag(on) => if on then Some("Lax") else None
  }

  /**
   * The policy read the way the serialiser reads it: `sameSite ?? "lax"` is
   * truthy exactly when a policy is written, and the text written is that
   * value (or `"Lax"` for a non-string) with its case normalised.
   */
  lemma SameSiteDefaulted(s: SameSite)
    ensures var sameSite := if s.Unset? then Named("lax") else s;
      (SameSitePolicy(s).Some? <==> sameSite == Flag(true) || (sameSite.Named? && sameSite.text != [])) &&
      (SameSitePolicy(s).Some? ==>
         SameSitePolicy(s).value == Capitalize(if sameSite.Named? then sameSite.text else "Lax"))
  {
    CapitalizeLax();
  }

  /** The SameSite part the serialiser appends is the policy's part. */
  lemma SameSitePart(s: SameSite)
    ensures var sameSite := if s.Unset? then Named("lax") else s;
      var policy := SameSitePolicy(s);
      (if sameSite == Flag(true) || (sameSite.Named? && sameSite.text != [])
       then ["SameSite=" + Capitalize(if sameSite.Named? then sameSite.text else "Lax")] else []) ==
      When(policy.Some?, "SameSite=" + policy.GetOr([]))
  {
    SameSiteDefaulted(s);
  }

  /** `[x]` when `present`, nothing otherwise: one conditional `push`. */
  function When<T>(present: bool, x: T): (r: seq<T>)
    ensures present ==> r == [x]
    ensures !present ==> r == []
  {
    if present then [x] else []
  }

  predicate DomainSet(options: CookieOptions) {
    options.domain.Some? && options.domain.value != []
  }

  /** The attributes written for a cookie, each present only when its option asks for it. */
  function Attributes(options: CookieOptions): seq<Attribute> {
    var policy := SameSitePolicy(options.sameSite);
    [PathAttr(options.path.GetOr("/"))]
    + When(DomainSet(options), DomainAttr(options.domain.GetOr([])))
    + When(options.secure, SecureAttr)
    + When(options.httpOnly, HttpOnlyAttr)
    + When(policy.Some?, SameSiteAttr(policy.GetOr([])))
    + When(options.maxAge.Some?, MaxAgeAttr(options.maxAge.GetOr(0)))
    + When(options.expires.Some?, ExpiresAttr(options.expires.GetOr([])))
  }

  /** Attributes in strictly increasing rank, all of them below `bound`. */
  predicate RankedBelow(attrs: seq<Attribute>, bound: nat) {
    (forall i, j :: 0 <= i < j < |attrs| ==> Rank(attrs[i]) < Rank(attrs[j])) &&
    (forall i :: 0 <= i < |attrs| ==> Rank(attrs[i]) < bound)
  }

  lemma RankedExtend(attrs: seq<Attribute>, present: bool, a: Attribute)
    requires RankedBelow(attrs, Rank(a))
    ensures RankedBelow(attrs + When(present, a), Rank(a) + 1)
  {
  }

  /** Some attribute of the kind with rank `kind` is present. */
  predicate HasKind(attrs: seq<Attribute>, kind: nat) {
    exists i :: 0 <= i < |attrs| && Rank(attrs[i]) == kind
  }

  lemma HasKindConcat(xs: seq<Attribute>, ys: seq<Attribute>, kind: nat)
    ensures HasKind(xs + ys, kind) <==> HasKind(xs, kind) || HasKind(ys, kind)
  {
    if HasKind(xs + ys, kind) {
      var i :| 0 <= i < |xs + ys| && Rank((xs + ys)[i]) == kind;
      if i >= |xs| {
        assert ys[i - |xs|] == (xs + ys)[i];
      }
    }
    if HasKind(ys, kind) {
      var i :| 0 <= i < |ys| && Rank(ys[i]) == kind;
      assert (xs + ys)[|xs| + i] == ys[i];
    }
    if HasKind(xs, kind) {
      var i :| 0 <= i < |xs| && Rank(xs[i]) == kind;
      assert (xs + ys)[i] == xs[i];
    }
  }

  lemma HasKindWhen(present: bool, a: Attribute, kind: nat)
    ensures HasKind(When(present, a), kind) <==> present && Rank(a) == kind
  {
    if present {
      assert When(present, a)[0] == a;
    }
  }

  /** The kinds present in the attributes: Path always, each other kind exactly when its option asks for it. */
  lemma AttributesKinds(options: CookieOptions, kind: nat)
    ensures HasKind(Attributes(options), kind) <==>
      kind == 0 || (kind == 1 && DomainSet(options)) || (kind == 2 && options.secure) ||
      (kind == 3 && options.httpOnly) || (kind == 4 && SameSitePolicy(options.sameSite).Some?) ||
      (kind == 5 && options.maxAge.Some?) || (kind == 6 && options.expires.Some?)
  {
    var policy := SameSitePolicy(options.sameSite);
    var d := When(DomainSet(options), DomainAttr(options.domain.GetOr([])));
    var s := When(options.secure, SecureAttr);
    var h := When(options.httpOnly, HttpOnlyAttr);
    var ss := When(policy.Some?, SameSiteAttr(policy.GetOr([])));
    var m := When(options.maxAge.Some?, MaxAgeAttr(options.maxAge.GetOr(0)));
    var e := When(options.expires.Some?, ExpiresAttr(options.expires.GetOr([])));
    var a0 := [PathAttr(options.path.GetOr("/"))];
    assert a0 + d + s + h + ss + m + e == Attributes(options);
    assert HasKind(a0, kind) <==> kind == 0 by {
      if kind == 0 {
        assert Rank(a0[0]) == 0;
      }
    }
    HasKindConcat(a0, d, kind);
    HasKindConcat(a0 + d, s, kind);
    HasKindConcat(a0 + d + s, h, kind);
    HasKindConcat(a0 + d + s + h, ss, kind);
    HasKindConcat(a0 + d + s + h + ss, m, kind);
    HasKindConcat(a0 + d + s + h + ss + m, e, kind);
    HasKindWhen(DomainSet(options), DomainAttr(options.domain.GetOr([])), kind);
    HasKindWhen(options.secure, SecureAttr, kind);
    HasKindWhen(options.httpOnly, HttpOnlyAttr, kind);
    HasKindWhen(policy.Some?, SameSiteAttr(policy.GetOr([])), kind);
    HasKindWhen(options.maxAge.Some?, MaxAgeAttr(options.maxAge.GetOr(0)), kind);
    HasKindWhen(options.expires.Some?, ExpiresAttr(options.expires.GetOr([])), kind);
  }

  /**
   * The attributes come in the order the serialiser pushes them, each kind
   * at most once, with Path first and its value defaulted to `/`.
   */
  lemma AttributesOrdered(options: CookieOptions)
    ensures Attributes(options)[0] == PathAttr(options.path.GetOr("/"))
    ensures RankedBelow(Attributes(options), 7)
  {
    var policy := SameSitePolicy(options.sameSite);
    RankedAttributes(options.path.GetOr("/"),
      DomainSet(options), options.domain.GetOr([]), options.secure, options.httpOnly,
      policy.Some?, policy.GetOr([]), options.maxAge.Some?, options.maxAge.GetOr(0),
      options.expires.Some?, options.expires.GetOr([]));
  }

  /** The ranking of `Attributes`, with each condition and value given directly. */
  lemma RankedAttributes(path: string, hasDomain: bool, domain: string, secure: bool, httpOnly: bool,
                         hasSameSite: bool, sameSite: string, hasMaxAge: bool, maxAge: int,
                         hasExpires: bool, expires: string)
    ensures RankedBelow([PathAttr(path)]
      + When(hasDomain, DomainAttr(domain))
      + When(secure, SecureAttr)
      + When(httpOnly, HttpOnlyAttr)
      + When(hasSameSite, SameSiteAttr(sameSite))
      + When(hasMaxAge, MaxAgeAttr(maxAge))
      + When(hasExpires, ExpiresAttr(expires)), 7)
  {
    var a0 := [PathAttr(path)];
    var a1 := a0 + When(hasDomain, DomainAttr(domain));
    var a2 := a1 + When(secure, SecureAttr);
    var a3 := a2 + When(httpOnly, HttpOnlyAttr);
    var a4 := a3 + When(hasSameSite, SameSiteAttr(sameSite));
    var a5 := a4 + When(hasMaxAge, MaxAgeAttr(maxAge));
    RankedExtend(a0, hasDomain, DomainAttr(domain));
    RankedExtend(a1, secure, SecureAttr);
    RankedExtend(a2, httpOnly, HttpOnlyAttr);
    RankedExtend(a3, hasSameSite, SameSiteAttr(sameSite));
    RankedExtend(a4, hasMaxAge, MaxAgeAttr(maxAge));
    RankedExtend(a5, hasExpires, ExpiresAttr(expires));
  }

  /**
   * The attribute parts as the serialiser words them: `Path=` and then each
   * part whose option is set.
   */
  function AttributeParts(options: CookieOptions): seq<string> {
    var policy := SameSitePolicy(options.sameSite);
    ["Path=" + options.path.GetOr("/")]
    + When(DomainSet(options), "Domain=" + options.domain.GetOr([]))
    + When(options.secure, "Secure")
    + When(options.httpOnly, "HttpOnly")
    + When(policy.Some?, "SameSite=" + policy.GetOr([]))
    + When(options.maxAge.Some?, "Max-Age=" + IntToDecimal(options.maxAge.GetOr(0)))
    + When(options.expires.Some?, "Expires=" + options.expires.GetOr([]))
  }

  lemma MapRenderWhen(present: bool, a: Attribute)
    ensures Map(Render, When(present, a)) == When(present, Render(a))
  {
  }

  /** The parts written are the attributes, each rendered, in the same order. */
  lemma AttributePartsRendered(options: CookieOptions)
    ensures AttributeParts(options) == Map(Render, Attributes(options))
  {
    var policy := SameSitePolicy(options.sameSite);
    var a0 := [PathAttr(options.path.GetOr("/"))];
    var d := When(DomainSet(options), DomainAttr(options.domain.GetOr([])));
    var s := When(options.secure, SecureAttr);
    var h := When(options.httpOnly, HttpOnlyAttr);
    var ss := When(policy.Some?, SameSiteAttr(policy.GetOr([])));
    var m := When(options.maxAge.Some?, MaxAgeAttr(options.maxAge.GetOr(0)));
    var e := When(options.expires.Some?, ExpiresAttr(options.expires.GetOr([])));
    assert Attributes(options) == a0 + d + s + h + ss + m + e;
    MapAppend(Render, a0, d);
    MapAppend(Render, a0 + d, s);
    MapAppend(Render, a0 + d + s, h);
    MapAppend(Render, a0 + d + s + h, ss);
    MapAppend(Render, a0 + d + s + h + ss, m);
    MapAppend(Render, a0 + d + s + h + ss + m, e);
    MapRenderWhen(DomainSet(options), DomainAttr(options.domain.GetOr([])));
    MapRenderWhen(options.secure, SecureAttr);
    MapRenderWhen(options.httpOnly, HttpOnlyAttr);
    MapRenderWhen(policy.Some?, SameSiteAttr(policy.GetOr([])));
    MapRenderWhen(options.maxAge.Some?, MaxAgeAttr(options.maxAge.GetOr(0)));
    MapRenderWhen(options.expires.Some?, ExpiresAttr(options.expires.GetOr([])));
  }

  /** The parts of the cookie line: the pair, then the attribute parts. */
  function CookieParts(c: CookieToSet): seq<string> {
    [Pair(c.name, c.value)] + AttributeParts(c.options)
  }

  /** The line assigned to `document.cookie` for one cookie. */
  function CookieLine(c: CookieToSet): string {
    Join(CookieParts(c), "; ")
  }

  /** The line begins with the pair and then the path, one `"; "` between them. */
  lemma CookieLineStart(c: CookieToSet)
    ensures StartsWith(CookieLine(c), Pair(c.name, c.value) + "; " + "Path=" + c.options.path.GetOr("/"))
  {
    var rendered := AttributeParts(c.options);
    JoinCons(Pair(c.name, c.value), rendered, "; ");
    JoinStartsWith(rendered, "; ");
    StartsWithExtend(Pair(c.name, c.value) + "; ", Join(rendered, "; "), rendered[0]);
  }

  /**
   * The cookie string builder of `setAll`: the pair, then one `push` per
   * attribute whose option is set. Each conditional `push` is written as
   * appending a part or nothing (`When`).
   */
  method SerializeCookie(c: CookieToSet) returns (line: string)
    ensures line == CookieLine(c)
  {
    var options := c.options;
    var parts := [Pair(c.name, c.value)];
    var path := options.path.GetOr("/");
    var sameSite := if options.sameSite.Unset? then Named("lax") else options.sameSite;
    var sameSiteValue := if sameSite.Named? then sameSite.text else "Lax";
    var normalizedSameSite := Capitalize(sameSiteValue);
    SameSitePart(options.sameSite);

    var attributes := ["Path=" + path];
    attributes := attributes + When(DomainSet(options), "Domain=" + options.domain.GetOr([]));
    attributes := attributes + When(options.secure, "Secure");
    attributes := attributes + When(options.httpOnly, "HttpOnly");
    attributes := attributes +
      if sameSite == Flag(true) || (sameSite.Named? && sameSite.text != []) then ["SameSite=" + normalizedSameSite] else [];
    attributes := attributes + When(options.maxAge.Some?, "Max-Age=" + IntToDecimal(options.maxAge.GetOr(0)));
    attributes := attributes + When(options.expires.Some?, "Expires=" + options.expires.GetOr([]));
    assert attributes == AttributeParts(options);
    parts := parts + attributes;
    line := Join(parts, "; ");
  }

  /**
   * `setAll`: the lines assigned to `document.cookie`, one per cookie in
   * order; nothing is written when there is no document.
   */
  method SetAll(hasDocument: bool, cookiesToSet: seq<CookieToSet>) returns (written: seq<string>)
    ensures !hasDocument ==> written == []
    ensures hasDocument ==> written == Map(CookieLine, cookiesToSet)
  {
    written := [];
    if !hasDocument {
      return;
    }
    for i := 0 to |cookiesToSet|
      invariant written == Map(CookieLine, cookiesToSet[..i])
    {
      var line := SerializeCookie(cookiesToSet[i]);
      assert cookiesToSet[..i + 1] == cookiesToSet[..i] + [cookiesToSet[i]];
      MapSnoc(CookieLine, cookiesToSet[..i], cookiesToSet[i]);
      written := written + [line];
    }
    assert cookiesToSet[..|cookiesToSet|] == cookiesToSet;
  }

  /** The client `createBrowserClient` returns; what it does is outside this model. */
  class SupabaseClient {
    const url: string
    const anonKey: string

    constructor(url: string, anonKey: string)
      ensures this.url == url && this.anonKey == anonKey
    {
      this.url := url;
      this.anonKey := anonKey;
    }
  }

  /** The module state of the client file: the memoised `browserClient`, null at first. */
  class ClientCache {
    var browserClient: Option<SupabaseClient>

    constructor()
      ensures browserClient == None
    {
      browserClient := None;
    }

    /**
     * `createClient`: builds the client on the first call only, and returns
     * that same instance on every call.
     */
    method CreateClient(url: string, anonKey: string) returns (client: SupabaseClient)
      modifies this
      ensures old(browserClient).Some? ==> client == old(browserClient).value
      ensures old(browserClient).None? ==> fresh(client) && client.url == url && client.anonKey == anonKey
      ensures browserClient == Some(client)
    {
      if browserClient.None? {
        var created := new SupabaseClient(url, anonKey);
        browserClient := Some(created);
      }
      client := browserClient.value;
    }
  }

  /** Two calls give the same instance, whatever the configuration read on the second. */
  method CreateClientTwice(cache: ClientCache, url: string, anonKey: string, url2: string, anonKey2: string)
    returns (first: SupabaseClient, second: SupabaseClient)
    modifies cache
    ensures first == second && cache.browserClient == Some(first)
  {
    first := cache.CreateClient(url, anonKey);
    second := cache.CreateClient(url2, anonKey2);
  }
}
