/** The directory resolver: request URL and directory of the simple resolver, and the caching resolver
    that must agree with it. */
module CsdsResolver {
  import opened Wrappers

  // ---------- requests ----------

  /** `service` is None when the options have no such property. */
  datatype Options = Options(csdsDomain: string, accountId: string, service: Option<string>)

  /** A service that is missing or empty is not asked for. */
  function ServiceOf(o: Options): string {
    if o.service.Some? then o.service.value else ""
  }

  function Url(o: Options): string {
    "https://" + o.csdsDomain + "/api/account/" + o.accountId + "/service/"
    + (if ServiceOf(o) != "" then ServiceOf(o) + "/" else "") + "baseURI.json?version=1.0"
  }

  function CacheKey(o: Options): string {
    if ServiceOf(o) != "" then o.accountId + "_" + ServiceOf(o) else o.accountId
  }

  /** The URL of a service, and of all services: the service is part of the path only if it is asked for. */
  lemma UrlIs(domain: string, account: string, service: string)
    ensures service != "" ==>
              Url(Options(domain, account, Some(service)))
              == "https://" + domain + "/api/account/" + account + "/service/" + service + "/baseURI.json?version=1.0"
    ensures Url(Options(domain, account, None)) == Url(Options(domain, account, Some("")))
            == "https://" + domain + "/api/account/" + account + "/service/baseURI.json?version=1.0"
  {
    if service != "" {
      assert service + "/" + "baseURI.json?version=1.0" == service + "/baseURI.json?version=1.0";
    }
    assert "/service/" + "" + "baseURI.json?version=1.0" == "/service/baseURI.json?version=1.0";
  }

  lemma KeyIs(domain: string, account: string, service: string)
    ensures service != "" ==> CacheKey(Options(domain, account, Some(service))) == account + "_" + service
    ensures CacheKey(Options(domain, account, None)) == CacheKey(Options(domain, account, Some(""))) == account
  {
  }

  // ---------- splitting ----------

  /** A character in neither part separates them in one way only. */
  lemma SplitAtFirst(a: string, b: string, c: char, x: string, y: string)
    requires c !in a && c !in b && a + [c] + x == b + [c] + y
    ensures a == b && x == y
  {
    var l, r := a + [c] + x, b + [c] + y;
    assert l[|a|] == c && r[|b|] == c;
    forall i | 0 <= i < |a| ensures l[i] == a[i] != c { assert a[i] in a; }
    forall i | 0 <= i < |b| ensures r[i] == b[i] != c { assert b[i] in b; }
    assert |a| == |b|;
    assert l[..|a|] == a && r[..|b|] == b;
    assert l[|a| + 1..] == x && r[|b| + 1..] == y;
  }

  lemma SamePrefix(p: string, x: string, y: string)
    requires p + x == p + y
    ensures x == y
  {
    assert (p + x)[|p|..] == x && (p + y)[|p|..] == y;
  }

  lemma SameSuffix(x: string, y: string, p: string)
    requires x + p == y + p
    ensures x == y
  {
    assert |x| == |y|;
    assert (x + p)[..|x|] == x && (y + p)[..|y|] == y;
  }

  const TAIL := "baseURI.json?version=1.0"

  /** The part of the URL after the account id. */
  function Rest(service: string): string {
    "service/" + (if service != "" then service + "/" else "") + TAIL
  }

  lemma RestInjective(s1: string, s2: string)
    requires Rest(s1) == Rest(s2)
    ensures s1 == s2
  {
    var m1 := if s1 != "" then s1 + "/" else "";
    var m2 := if s2 != "" then s2 + "/" else "";
    assert Rest(s1) == "service/" + (m1 + TAIL) && Rest(s2) == "service/" + (m2 + TAIL);
    SamePrefix("service/", m1 + TAIL, m2 + TAIL);
    SameSuffix(m1, m2, TAIL);
    if s1 != "" && s2 != "" { SameSuffix(s1, s2, "/"); }
  }

  lemma UrlParts(o: Options)
    ensures Url(o) == "https://" + o.csdsDomain + "/api/account/" + (o.accountId + ['/'] + Rest(ServiceOf(o)))
  {
    var svc := if ServiceOf(o) != "" then ServiceOf(o) + "/" else "";
    var head := "https://" + o.csdsDomain + "/api/account/";
    assert "/service/" == ['/'] + "service/";
    assert Url(o) == head + o.accountId + "/service/" + svc + TAIL;
    assert head + o.accountId + "/service/" + svc + TAIL == head + (o.accountId + ['/'] + ("service/" + svc + TAIL));
  }

  // ---------- key and URL ----------

  /** Names that end at the first '/' behind them; with one domain for all, the domain may be anything. */
  ghost predicate Separable(a: Options, b: Options) {
    && '/' !in a.accountId && '/' !in b.accountId
    && (a.csdsDomain == b.csdsDomain || ('/' !in a.csdsDomain && '/' !in b.csdsDomain))
  }

  lemma UrlFromDomain(o: Options)
    ensures Url(o)
            == "https://" + (o.csdsDomain + ['/'] + ("api/account/" + (o.accountId + ['/'] + Rest(ServiceOf(o)))))
  {
    UrlParts(o);
    var x := o.accountId + ['/'] + Rest(ServiceOf(o));
    assert "/api/account/" == ['/'] + "api/account/";
    assert "https://" + o.csdsDomain + "/api/account/" + x
           == "https://" + (o.csdsDomain + ['/'] + ("api/account/" + x));
  }

  lemma SameDomain(a: Options, b: Options)
    requires Separable(a, b) && Url(a) == Url(b)
    ensures a.csdsDomain == b.csdsDomain
  {
    if a.csdsDomain != b.csdsDomain {
      UrlFromDomain(a);
      UrlFromDomain(b);
      var x, y := a.accountId + ['/'] + Rest(ServiceOf(a)), b.accountId + ['/'] + Rest(ServiceOf(b));
      SamePrefix("https://", a.csdsDomain + ['/'] + ("api/account/" + x), b.csdsDomain + ['/'] + ("api/account/" + y));
      SplitAtFirst(a.csdsDomain, b.csdsDomain, '/', "api/account/" + x, "api/account/" + y);
    }
  }

  /** Without '/' in the names, the URL tells domain, account and service apart. */
  lemma UrlDetermines(a: Options, b: Options)
    requires Separable(a, b)
    ensures Url(a) == Url(b)
            <==> a.csdsDomain == b.csdsDomain && a.accountId == b.accountId && ServiceOf(a) == ServiceOf(b)
  {
    UrlParts(a);
    UrlParts(b);
    if Url(a) == Url(b) {
      SameDomain(a, b);
      var ra, rb := Rest(ServiceOf(a)), Rest(ServiceOf(b));
      SamePrefix("https://" + a.csdsDomain + "/api/account/", a.accountId + ['/'] + ra, b.accountId + ['/'] + rb);
      SplitAtFirst(a.accountId, b.accountId, '/', ra, rb);
      RestInjective(ServiceOf(a), ServiceOf(b));
    }
  }

  lemma KeyParts(o: Options)
    requires ServiceOf(o) != ""
    ensures CacheKey(o) == o.accountId + ['_'] + ServiceOf(o) && '_' in CacheKey(o)
  {
    assert CacheKey(o)[|o.accountId|] == '_';
  }

  /** Without '_' in the account ids, the cache key tells account and service apart. */
  lemma KeyDetermines(a: Options, b: Options)
    requires '_' !in a.accountId && '_' !in b.accountId
    ensures CacheKey(a) == CacheKey(b) <==> a.accountId == b.accountId && ServiceOf(a) == ServiceOf(b)
  {
    if CacheKey(a) == CacheKey(b) {
      if ServiceOf(a) != "" { KeyParts(a); }
      if ServiceOf(b) != "" { KeyParts(b); }
      if ServiceOf(a) != "" && ServiceOf(b) != "" {
        SplitAtFirst(a.accountId, b.accountId, '_', ServiceOf(a), ServiceOf(b));
      }
    }
  }

  /** Main result: for one domain and account ids without '_' and '/', two cache keys are equal exactly when
      the request URLs are; an empty service counts as a missing one on both sides. */
  lemma KeyAgreesWithUrl(a: Options, b: Options)
    requires a.csdsDomain == b.csdsDomain
    requires '/' !in a.accountId && '/' !in b.accountId && '_' !in a.accountId && '_' !in b.accountId
    ensures CacheKey(a) == CacheKey(b) <==> Url(a) == Url(b)
  {
    KeyDetermines(a, b);
    UrlDetermines(a, b);
  }

  /** Without that: equal keys name the same request exactly when the domains and the account ids are equal. */
  lemma KeyCollision(a: Options, b: Options)
    requires Separable(a, b) && CacheKey(a) == CacheKey(b)
    ensures Url(a) == Url(b) <==> a.csdsDomain == b.csdsDomain && a.accountId == b.accountId
  {
    UrlDetermines(a, b);
    if a.accountId == b.accountId {
      if ServiceOf(a) != "" { KeyParts(a); }
      if ServiceOf(b) != "" { KeyParts(b); }
      if ServiceOf(a) != "" && ServiceOf(b) != "" {
        SamePrefix(a.accountId + ['_'], ServiceOf(a), ServiceOf(b));
      } else {
        assert |CacheKey(a)| == |CacheKey(b)|;
      }
    }
  }

  /** Accounts with '_', and different domains, do collide, whatever the account and the service. */
  lemma CollisionExists(domain: string, other: string, account: string, service: string)
    requires service != "" && '/' !in account && '/' !in service && domain != other && '/' !in domain && '/' !in other
    ensures var a, b := Options(domain, account, Some(service)), Options(domain, account + "_" + service, None);
            CacheKey(a) == CacheKey(b) && Url(a) != Url(b)
    ensures var a, c := Options(domain, account, Some(service)), Options(other, account, Some(service));
            CacheKey(a) == CacheKey(c) && Url(a) != Url(c)
  {
    UrlDetermines(Options(domain, account, Some(service)), Options(domain, account + "_" + service, None));
    UrlDetermines(Options(domain, account, Some(service)), Options(other, account, Some(service)));
  }

  // ---------- the directory ----------

  datatype Entry = Entry(service: string, baseURI: string)

  /** The body of an answer: a list of entries, one entry, or nothing. */
  datatype Body = Listed(baseURIs: seq<Entry>) | Single(entry: Entry) | Empty

  function Entries(body: Body): seq<Entry> {
    match body
    case Listed(es) => es
    case Single(e) => [e]
    case Empty => []
  }

  type Directory = map<string, string>

  ghost predicate LastListed(es: seq<Entry>, i: nat) {
    i < |es| && forall j :: i < j < |es| ==> es[j].service != es[i].service
  }

  /** The directory has the listed services, each with its last listed address. */
  ghost predicate IsDirectoryOf(d: Directory, es: seq<Entry>) {
    && (forall e :: e in es ==> e.service in d)
    && (forall s :: s in d ==> exists i: nat :: LastListed(es, i) && es[i].service == s && d[s] == es[i].baseURI)
  }

  lemma DirectoryUnique(d: Directory, d': Directory, es: seq<Entry>)
    requires IsDirectoryOf(d, es) && IsDirectoryOf(d', es)
    ensures d == d'
  {
    forall s ensures s in d <==> s in d' {
      if s in d { var i: nat :| LastListed(es, i) && es[i].service == s; assert es[i] in es; }
      if s in d' { var i: nat :| LastListed(es, i) && es[i].service == s; assert es[i] in es; }
    }
    forall s | s in d ensures d[s] == d'[s] {
      var i: nat :| LastListed(es, i) && es[i].service == s && d[s] == es[i].baseURI;
      var j: nat :| LastListed(es, j) && es[j].service == s && d'[s] == es[j].baseURI;
      assert i == j;
    }
  }

  /** The fold of the simple resolver over the answer's entries: a list of entries, one entry, or nothing. */
  method ToDirectory(body: Body) returns (d: Directory)
    ensures body.Listed? ==> IsDirectoryOf(d, body.baseURIs)
    ensures body.Single? ==> d == map[body.entry.service := body.entry.baseURI]
    ensures body.Empty? ==> d == map[]
  {
    var es := Entries(body);
    d := map[];
    var i := 0;
    assert es[..0] == [];
    while i < |es|
      invariant 0 <= i <= |es|
      invariant IsDirectoryOf(d, es[..i])
    {
      ghost var before := d;
      d := d[es[i].service := es[i].baseURI];
      AddEntry(before, es[..i], es[i]);
      assert es[..i + 1] == es[..i] + [es[i]];
      i := i + 1;
    }
    assert es[..i] == es;
    if body.Single? { SingleDirectory(d, body.entry); }
  }

  lemma SingleDirectory(d: Directory, e: Entry)
    requires IsDirectoryOf(d, [e])
    ensures d == map[e.service := e.baseURI]
  {
    assert e in [e];
  }

  lemma AddEntry(d: Directory, es: seq<Entry>, e: Entry)
    requires IsDirectoryOf(d, es)
    ensures IsDirectoryOf(d[e.service := e.baseURI], es + [e])
  {
    var d', es' := d[e.service := e.baseURI], es + [e];
    forall s | s in d' ensures exists i: nat :: LastListed(es', i) && es'[i].service == s && d'[s] == es'[i].baseURI {
      if s == e.service {
        assert LastListed(es', |es|);
      } else {
        var i: nat :| LastListed(es, i) && es[i].service == s && d[s] == es[i].baseURI;
        assert LastListed(es', i);
      }
    }
  }
}
