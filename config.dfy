/**
 * How the ambient configuration (the package-level Headers and Cookies maps)
 * lands on a request: as value functions, against which
 * `setHttpHeaderAndCookie` is proved.
 */
module Config {
  import opened Http

  /**
   * The request header after every ambient entry has been `Set` onto it:
   * ambient keys win, other request keys keep their values.
   */
  function Inject(header: map<string, seq<string>>, ambient: map<string, string>): (r: map<string, seq<string>>)
    ensures r.Keys == header.Keys + ambient.Keys
    ensures forall k :: k in ambient ==> r[k] == [ambient[k]]
    ensures forall k :: k in header && k !in ambient ==> r[k] == header[k]
  {
    header + map k | k in ambient :: [ambient[k]]
  }

  /** The cookies added for an ambient cookie map: one cookie per entry. */
  function CookieBag(cookies: map<string, string>): (b: multiset<Cookie>)
    ensures forall k :: k in cookies ==> b[Cookie(k, cookies[k])] == 1
    ensures forall c :: c in b ==> c.name in cookies && cookies[c.name] == c.value
  {
    multiset(set k | k in cookies :: Cookie(k, cookies[k]))
  }

  /**
   * One step of setting the ambient headers in some order: setting key `k`
   * after the keys outside `todo` gives the injection of one more key.
   */
  lemma InjectStep(header: map<string, seq<string>>, ambient: map<string, string>, todo: set<string>, k: string)
    requires k in todo && todo <= ambient.Keys
    ensures Inject(header, ambient - todo)[k := [ambient[k]]] == Inject(header, ambient - (todo - {k}))
  {
    assert (ambient - todo)[k := ambient[k]] == ambient - (todo - {k});
  }

  /** One more ambient cookie adds exactly one cookie to the bag. */
  lemma CookieBagAdd(cookies: map<string, string>, k: string, v: string)
    requires k !in cookies
    ensures CookieBag(cookies[k := v]) == CookieBag(cookies) + multiset{Cookie(k, v)}
  {
    var s := set j | j in cookies :: Cookie(j, cookies[j]);
    var m := cookies[k := v];
    var s' := set j | j in m :: Cookie(j, m[j]);
    forall c | c in s' ensures c in s + {Cookie(k, v)} {
      var j :| j in m && c == Cookie(j, m[j]);
      if j != k { assert c == Cookie(j, cookies[j]); }
    }
    forall c | c in s + {Cookie(k, v)} ensures c in s' {
      if c != Cookie(k, v) {
        var j :| j in cookies && c == Cookie(j, cookies[j]);
        assert c == Cookie(j, m[j]);
      } else {
        assert c == Cookie(k, m[k]);
      }
    }
    assert s' == s + {Cookie(k, v)};
    assert Cookie(k, v) !in s;
  }

  /** One step of adding the ambient cookies in some order. */
  lemma CookieStep(cookies: map<string, string>, todo: set<string>, k: string)
    requires k in todo && todo <= cookies.Keys
    ensures CookieBag(cookies - todo) + multiset{Cookie(k, cookies[k])} == CookieBag(cookies - (todo - {k}))
  {
    assert (cookies - todo)[k := cookies[k]] == cookies - (todo - {k});
    CookieBagAdd(cookies - todo, k, cookies[k]);
  }

  /** A request receives as many cookies as there are ambient cookie entries. */
  lemma {:induction false} CookieBagSize(cookies: map<string, string>)
    ensures |CookieBag(cookies)| == |cookies|
    decreases |cookies|
  {
    if cookies != map[] {
      var k :| k in cookies;
      var rest := cookies - {k};
      assert rest.Keys == cookies.Keys - {k};
      assert rest[k := cookies[k]] == cookies;
      CookieBagAdd(rest, k, cookies[k]);
      CookieBagSize(rest);
    }
  }
}
