/** When the values put into a routing template leave its documents in one piece: a rendered document gets a
    separator from a value only if some value has "---" in it or a public name runs into a following dash. */
module TemplateText {
  import opened Text
  import opened Api
  import opened RouteTypes
  import opened Templates

  /** The number of dashes `s` ends in after `n` dashes, stuck at 3 once three came in a row. */
  function DashRun(n: nat, s: string): (r: nat)
    ensures r <= 3
    decreases |s|
  {
    if n >= 3 then 3
    else if s == "" then n
    else DashRun(if s[0] == '-' then n + 1 else 0, s[1..])
  }

  function Dashes(n: nat): string {
    seq(n, _ => '-')
  }

  lemma {:induction false} DashRunConcat(n: nat, a: string, b: string)
    ensures DashRun(n, a + b) == DashRun(DashRun(n, a), b)
    decreases |a|
  {
    if n < 3 && a != "" {
      assert (a + b)[1..] == a[1..] + b;
      DashRunConcat(if a[0] == '-' then n + 1 else 0, a[1..], b);
    } else if a == "" {
      assert a + b == b;
    }
  }

  /** A separator cannot reach back over a character that is no dash. */
  lemma PastNoDash(n: nat, s: string)
    requires s != "" && s[0] != '-' && n < 3
    ensures Contains(Dashes(n) + s, DOCUMENT_SEPARATOR) <==> Contains(s[1..], DOCUMENT_SEPARATOR)
  {
    var all, rest := Dashes(n) + s, s[1..];
    forall j: nat
      ensures OccursAt(all, DOCUMENT_SEPARATOR, j) <==> j > n && OccursAt(rest, DOCUMENT_SEPARATOR, j - n - 1) {
      if j + 3 <= |all| {
        if j <= n {
          assert all[j..j + 3][n - j] == all[n] == s[0];
        } else {
          assert all[j..j + 3] == rest[j - n - 1..j - n + 2];
        }
      }
    }
    hide OccursAt;
    if Contains(rest, DOCUMENT_SEPARATOR) {
      assert OccursAt(all, DOCUMENT_SEPARATOR, n + 1 + Index(rest, DOCUMENT_SEPARATOR));
    }
  }

  /** Three dashes in a row are an occurrence of the separator. */
  lemma {:induction false} DashRunFindsSeparator(n: nat, s: string)
    requires n < 3
    ensures DashRun(n, s) == 3 <==> Contains(Dashes(n) + s, DOCUMENT_SEPARATOR)
    decreases |s|
  {
    if s == "" {
      assert Dashes(n) + s == Dashes(n);
    } else if s[0] != '-' {
      PastNoDash(n, s);
      DashRunFindsSeparator(0, s[1..]);
      assert Dashes(0) + s[1..] == s[1..];
      hide Contains;
    } else {
      assert Dashes(n) + s == Dashes(n + 1) + s[1..];
      if n + 1 == 3 {
        assert OccursAt(Dashes(n) + s, DOCUMENT_SEPARATOR, 0);
      } else {
        DashRunFindsSeparator(n + 1, s[1..]);
      }
    }
  }

  lemma DashRunOf(s: string)
    ensures DashRun(0, s) == 3 <==> Contains(s, DOCUMENT_SEPARATOR)
  {
    DashRunFindsSeparator(0, s);
    assert Dashes(0) + s == s;
  }

  /** A text that does not end in a dash leaves no dashes behind. */
  lemma DashRunEnd(n: nat, s: string)
    requires DashRun(n, s) < 3 && s != "" && s[|s| - 1] != '-'
    ensures DashRun(n, s) == 0
  {
    var k := |s| - 1;
    assert s == s[..k] + [s[k]];
    DashRunConcat(n, s[..k], [s[k]]);
    assert [s[k]][1..] == "";
  }

  /** Words without dashes end every run. */
  lemma {:induction false} DashRunPlain(n: nat, s: string)
    requires s != "" && n < 3 && forall i :: 0 <= i < |s| ==> s[i] != '-'
    ensures DashRun(n, s) == 0
    decreases |s|
  {
    if |s| > 1 { DashRunPlain(0, s[1..]); }
  }

  /* ---------- values ---------- */

  predicate Unbroken(s: string) {
    !Contains(s, DOCUMENT_SEPARATOR)
  }

  /** A non-empty name without "---" that neither starts nor ends with a dash. */
  predicate TidyName(s: string) {
    Unbroken(s) && s != "" && s[0] != '-' && s[|s| - 1] != '-'
  }

  /** What a caller can check about a service port and the configuration. Only the port may be unnamed. */
  predicate TidyExposure(svc: Service, port: Port, ingress: IngressConfig, domain: string) {
    && TidyName(svc.name) && TidyName(svc.namespace) && (port.name == "" || TidyName(port.name))
    && Unbroken(port.targetPort) && Unbroken(domain)
    && Unbroken(ingress.gatewayNamespace) && Unbroken(ingress.service)
    && Unbroken(ingress.selectorLabel) && Unbroken(ingress.selectorValue)
  }

  lemma TidyNameRun(n: nat, s: string)
    requires TidyName(s) && n < 3
    ensures DashRun(n, s) == 0
  {
    DashRunOf(s);
    assert DashRun(n, s) == DashRun(0, s[1..]) == DashRun(0, s);
    DashRunEnd(n, s);
  }

  lemma TidyPublicName(svc: Service, port: Port, ingress: IngressConfig, domain: string)
    requires TidyExposure(svc, port, ingress, domain)
    ensures DashRun(0, PublicName(svc.name, port.name, svc.namespace)) == 0
  {
    TidyNameRun(0, svc.name);
    DashRunConcat(0, svc.name, "-");
    assert DashRun(0, "-") == DashRun(1, ""[..]) == 1 by { assert "-"[1..] == ""; }
    var a := svc.name + "-";
    if port.name != "" { TidyNameRun(1, port.name); }
    DashRunConcat(0, a, port.name);
    var b := a + port.name;
    assert DashRun(0, b) <= 1;
    DashRunConcat(0, b, "-");
    assert DashRun(1, "-") == 2 by { assert "-"[1..] == ""; }
    TidyNameRun(DashRun(0, b + "-"), svc.namespace);
    DashRunConcat(0, b + "-", svc.namespace);
    assert b + "-" + svc.namespace == PublicName(svc.name, port.name, svc.namespace);
  }

  lemma DottedRun(name: string, rest: string)
    requires DashRun(0, name) == 0 && Unbroken(rest)
    ensures DashRun(0, name + "." + rest) == DashRun(0, rest) < 3
  {
    DashRunOf(rest);
    DashRunConcat(0, name, "." + rest);
    assert name + "." + rest == name + ("." + rest);
    assert ("." + rest)[1..] == rest;
  }

  lemma TailRun(s: string, tail: Plain)
    requires DashRun(0, s) < 3
    ensures DashRun(0, s + tail) == 0
  {
    DashRunConcat(0, s, tail);
    DashRunPlain(DashRun(0, s), tail);
  }

  lemma HostRuns(d: ExposedService)
    requires DashRun(0, d.publicServiceName) == 0 && Unbroken(d.ingress.gatewayNamespace)
    ensures forall i :: 0 <= i < 3 ==> DashRun(0, d.PublicHosts()[i]) < 3
  {
    hide DashRun, Unbroken;
    DottedRun(d.publicServiceName, d.ingress.gatewayNamespace);
    var base := d.PublicHosts()[0];
    TailRun(base, ".svc");
    TailRun(base, ".svc.cluster.local");
  }

  lemma {:induction false} HostItemsRun(hosts: seq<string>)
    requires forall i :: 0 <= i < |hosts| ==> DashRun(0, hosts[i]) < 3
    ensures DashRun(0, HostItems(hosts)) == 0
    decreases |hosts|
  {
    if hosts != [] {
      var item := "\n    - ";
      assert item == "\n    " + "-" + " ";
      DashRunConcat(0, "\n    ", "-");
      DashRunConcat(0, "\n    -", " ");
      DashRunPlain(0, "\n    ");
      DashRunPlain(1, " ");
      DashRunConcat(0, item, hosts[0]);
      DashRunPlain(DashRun(0, hosts[0]), "\n");
      DashRunConcat(0, item + hosts[0], "\n");
      HostItemsRun(hosts[1..]);
      DashRunConcat(0, item + hosts[0] + "\n", HostItems(hosts[1..]));
    }
  }

  /* ---------- documents ---------- */

  /** Sections start with words; a dash stands between words, or between a public name and words; a value follows
      literal text. */
  predicate PieceFits(ps: seq<Piece>, i: nat)
    requires i < |ps|
  {
    match ps[i]
    case Words(_) => true
    case Dash => i > 0 && (ps[i - 1].Words? || ps[i - 1] == Hole(PublicServiceName)) && i + 1 < |ps| && ps[i + 1].Words?
    case _ => i > 0 && ps[i - 1].Words?
  }

  ghost predicate SectionFits(ps: seq<Piece>) {
    forall i: nat :: i < |ps| ==> PieceFits(ps, i)
  }

  ghost predicate TidyFields(d: ExposedService) {
    && DashRun(0, d.publicServiceName) == 0
    && (forall f: Field :: DashRun(0, FieldValue(f, d)) < 3)
    && DashRun(0, HostItems(d.PublicHosts())) == 0
  }

  lemma RenderPrefix(ps: seq<Piece>, d: ExposedService, i: nat)
    requires i < |ps|
    ensures Render(ps[..i + 1], d) == Render(ps[..i], d) + RenderPiece(ps[i], d)
  {
    if i == 0 {
      assert ps[..1] == [ps[0]];
      assert Render([ps[0]], d) == RenderPiece(ps[0], d) + Render([ps[0]][1..], d);
    } else {
      RenderPrefix(ps[1..], d, i - 1);
      assert ps[..i + 1][1..] == ps[1..][..i] && ps[..i][1..] == ps[1..][..i - 1];
    }
  }

  lemma {:induction false} SectionRun(n: nat, ps: seq<Piece>, d: ExposedService, i: nat)
    requires SectionFits(ps) && TidyFields(d) && i <= |ps| && n < 3
    ensures DashRun(n, Render(ps[..i], d)) < 3
    ensures i > 0 && (!ps[i - 1].Hole? || ps[i - 1].field.PublicServiceName?) ==>
      DashRun(n, Render(ps[..i], d)) == if ps[i - 1].Dash? then 1 else 0
    decreases i
  {
    if i > 0 {
      SectionRun(n, ps, d, i - 1);
      var before, p := Render(ps[..i - 1], d), ps[i - 1];
      RenderPrefix(ps, d, i - 1);
      DashRunConcat(n, before, RenderPiece(p, d));
      assert PieceFits(ps, i - 1);
      if i > 1 { assert PieceFits(ps, i - 2); }
      if p.Words? { DashRunPlain(DashRun(n, before), p.text); }
      if p.Dash? { assert DashRun(0, "-") == DashRun(1, "-"[1..]) == 1; }
    }
  }

  lemma {:induction false} SectionsRun(n: nat, sections: seq<seq<Piece>>, d: ExposedService)
    requires (forall i :: 0 <= i < |sections| ==> SectionFits(sections[i])) && TidyFields(d) && n < 3
    ensures DashRun(n, RenderSections(sections, d)) < 3
    decreases |sections|
  {
    if sections != [] {
      var ps := sections[0];
      SectionRun(n, ps, d, |ps|);
      assert ps[..|ps|] == ps;
      DashRunConcat(n, Render(ps, d), RenderSections(sections[1..], d));
      SectionsRun(DashRun(n, Render(ps, d)), sections[1..], d);
    }
  }

  ghost predicate DocumentFits(doc: Document) {
    forall j :: 0 <= j < |doc.body| ==> SectionFits(doc.body[j])
  }

  lemma ExternalDocumentsFit()
    ensures DocumentFits(ROUTE_DOC) && DocumentFits(INGRESS_DOC)
  {
  }

  lemma PublicServiceFits()
    ensures DocumentFits(SERVICE_DOC) && DocumentFits(GATEWAY_DOC)
  {
  }

  lemma PublicRulesFit()
    ensures DocumentFits(PUBLIC_VS_DOC) && DocumentFits(DESTINATION_RULE_DOC)
  {
  }

  lemma DocumentsFit(mode: RouteType, i: nat)
    requires i < |Documents(mode)|
    ensures DocumentFits(Documents(mode)[i])
  {
    ExternalDocumentsFit();
    PublicServiceFits();
    PublicRulesFit();
    hide DocumentFits;
  }

  /** With tidy names and unbroken values every route type can be loaded. */
  lemma TidyExposureLoads(mode: RouteType, svc: Service, port: Port, ingress: IngressConfig, domain: string)
    requires mode in AllRouteTypes() && TidyExposure(svc, port, ingress, domain)
    ensures Loadable(mode, NewExposedService(svc, port, ingress, domain))
  {
    var d := NewExposedService(svc, port, ingress, domain);
    TidyPublicName(svc, port, ingress, domain);
    HostRuns(d);
    HostItemsRun(d.PublicHosts());
    forall f: Field ensures DashRun(0, FieldValue(f, d)) < 3 {
      if f == ExternalHostName { DottedRun(d.publicServiceName, domain); }
      DashRunOf(FieldValue(f, d));
    }
    forall i | 0 <= i < |Documents(mode)| ensures !Contains(TextOf(Documents(mode)[i], d), DOCUMENT_SEPARATOR) {
      DocumentsFit(mode, i);
      SectionsRun(0, Documents(mode)[i].body, d);
      DashRunOf(TextOf(Documents(mode)[i], d));
    }
  }
}
