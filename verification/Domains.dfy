/** Domain names of applications (internal/domain/application.go). */
module Domains {
  import opened Wrappers
  import opened Text

  datatype Domain = Domain(subdomain: string, rootDomain: string) {
    function FQDN(): string { subdomain + "." + rootDomain }
  }

  function NewDomainByFQDN(fqdn: string, rootDomain: string): Result<Domain> {
    if fqdn == "" then Err("fqdn is required")
    else if rootDomain == "" then Err("root domain is required")
    else if !HasSuffix(fqdn, rootDomain) then Err("fqdn must end with the root domain")
    else
      var subdomain := TrimSuffix(fqdn, "." + rootDomain);
      if subdomain == "" then Err("subdomain is required in fqdn") else Ok(Domain(subdomain, rootDomain))
  }

  /** Exactly when a name is accepted. */
  lemma AcceptedNames(fqdn: string, rootDomain: string)
    ensures NewDomainByFQDN(fqdn, rootDomain).Ok? <==>
            rootDomain != "" && HasSuffix(fqdn, rootDomain) && fqdn != "." + rootDomain
  {
    var dotted := "." + rootDomain;
    if HasSuffix(fqdn, dotted) {
      assert fqdn == fqdn[..|fqdn| - |dotted|] + dotted;
    }
  }

  /** An accepted name is given back exactly when a dot stands before the root domain. */
  lemma NameGivenBack(fqdn: string, rootDomain: string)
    requires NewDomainByFQDN(fqdn, rootDomain).Ok?
    ensures var d := NewDomainByFQDN(fqdn, rootDomain).value;
            && (d.FQDN() == fqdn <==> HasSuffix(fqdn, "." + rootDomain))
            && (d.FQDN() != fqdn ==> d.subdomain == fqdn)
  {
    var dotted := "." + rootDomain;
    var d := NewDomainByFQDN(fqdn, rootDomain).value;
    assert d.FQDN() == d.subdomain + dotted;
    assert HasSuffix(d.FQDN(), dotted);
    if HasSuffix(fqdn, dotted) {
      assert fqdn == fqdn[..|fqdn| - |dotted|] + dotted;
    }
  }

  /** Without the dot the whole name becomes the subdomain. */
  lemma DotlessName()
    ensures NewDomainByFQDN("myexample.org", "example.org") == Ok(Domain("myexample.org", "example.org"))
    ensures Domain("myexample.org", "example.org").FQDN() != "myexample.org"
  {
    assert "myexample.org"[2..] == "example.org";
    assert |".example.org"| == 12 && "myexample.org"[1..] != ".example.org" by { assert "myexample.org"[1..][0] == 'y'; }
    assert |Domain("myexample.org", "example.org").FQDN()| == 25;
  }

  /** A domain with both parts survives being written as a name and read again. */
  lemma DomainRoundTrip(d: Domain)
    requires d.subdomain != "" && d.rootDomain != ""
    ensures NewDomainByFQDN(d.FQDN(), d.rootDomain) == Ok(d)
  {
    var dotted := "." + d.rootDomain;
    assert d.FQDN() == d.subdomain + dotted;
    assert HasSuffix(d.FQDN(), dotted) && HasSuffix(d.FQDN(), d.rootDomain);
  }
}
