/** The rewrite a docker start applies to the loaded compose project before writing it
    (`TransformComposeProject` in adapters/instancers/docker/compose.go). Only the parts it
    reads or writes are kept: each service's container name and labels, and the
    networks. Go's map iteration order is unspecified; every loop here picks the next key
    with `:|`, so what is proved holds for every order. */
module Compose {
  import opened Base
  import opened Docker

  /** A service of the project. */
  datatype Service = Service(containerName: string, labels: map<string, string>)

  /** A network of the project. `driver` stands for the fields the rewrite leaves alone. */
  datatype Network = Network(name: string, external: bool, driver: string)

  /** A label addressed to the caddy reverse proxy. */
  predicate IsCaddy(key: string) {
    HasPrefix(key, "caddy")
  }

  /** A numbered caddy label (`caddy_0`, ...), which would configure a second site. */
  predicate IsNumberedCaddy(key: string) {
    HasPrefix(key, "caddy_")
  }

  /** The service carries some caddy label. */
  predicate HasCaddy(s: Service) {
    exists l :: l in s.labels && IsCaddy(l)
  }

  /** One service is acceptable: no fixed container name and no numbered caddy label. */
  predicate ServiceOk(s: Service) {
    s.containerName == "" && forall l :: l in s.labels ==> !IsNumberedCaddy(l)
  }

  /** A project the rewrite accepts: every service acceptable, and at most one service
      (the ingress) carrying caddy labels. */
  predicate Acceptable(services: map<string, Service>) {
    (forall n :: n in services ==> ServiceOk(services[n]))
    && (forall a, b :: a in services && b in services && HasCaddy(services[a]) && HasCaddy(services[b]) ==> a == b)
  }

  /** The ingress service's name, or "" when no service carries a caddy label. */
  ghost function IngressOf(services: map<string, Service>): (i: string)
    requires Acceptable(services) && "" !in services
    ensures forall n :: n in services && HasCaddy(services[n]) ==> n == i
    ensures i == "" <==> forall n :: n in services ==> !HasCaddy(services[n])
    ensures i != "" ==> i in services
  {
    if exists n :: n in services && HasCaddy(services[n]) then
      var n :| n in services && HasCaddy(services[n]); n
    else ""
  }

  /** A service after the rewrite: the ingress gets its `caddy` label pointed at the
      instance's domain, every other service loses its caddy labels. */
  function RewriteService(name: string, s: Service, ingress: string, domain: string): Service {
    if name == ingress then s.(labels := s.labels["caddy" := "http://" + domain])
    else s.(labels := map l | l in s.labels && !IsCaddy(l) :: s.labels[l])
  }

  /** Every service after the rewrite. */
  function Rewritten(services: map<string, Service>, ingress: string, domain: string): (r: map<string, Service>)
    ensures r.Keys == services.Keys
    ensures ingress in r ==> "caddy" in r[ingress].labels && r[ingress].labels["caddy"] == "http://" + domain
    ensures forall n, l :: n in r && n != ingress && l in r[n].labels ==> !IsCaddy(l)
    ensures forall n, l :: n in r && l in services[n].labels && !IsCaddy(l) ==>
      l in r[n].labels && r[n].labels[l] == services[n].labels[l]
    ensures forall n :: n in r ==> r[n].containerName == services[n].containerName
  {
    map n | n in services :: RewriteService(n, services[n], ingress, domain)
  }

  /** A compose project, updated in place. */
  class Project {
    var services: map<string, Service>
    var networks: map<string, Network>

    constructor(services: map<string, Service>, networks: map<string, Network>)
      ensures this.services == services && this.networks == networks
    {
      this.services := services;
      this.networks := networks;
    }

    /** The first loop of the rewrite, for one service: a container name, a numbered
        caddy label, or caddy labels on a second service are errors; otherwise a service
        with caddy labels becomes the ingress. */
    static method CheckService(name: string, s: Service, ingress: string) returns (ingress': string, err: Option<string>)
      requires name != ""
      ensures err.Some? <==> !ServiceOk(s) || (HasCaddy(s) && ingress != "" && ingress != name)
      ensures err.None? ==> ingress' == if HasCaddy(s) then name else ingress
    {
      if s.containerName != "" {
        return ingress, Some("container_name is not supported in service " + name);
      }
      ingress' := ingress;
      var todo := s.labels.Keys;
      ghost var seenCaddy := false;
      while todo != {}
        invariant todo <= s.labels.Keys
        invariant forall l :: l in s.labels && l !in todo ==> !IsNumberedCaddy(l)
        invariant seenCaddy <==> exists l :: l in s.labels && l !in todo && IsCaddy(l)
        invariant ingress' == if seenCaddy then name else ingress
        invariant seenCaddy ==> ingress == "" || ingress == name
        decreases |todo|
      {
        var l :| l in todo;
        if IsNumberedCaddy(l) {
          return ingress', Some("multiple caddy config is not supported in service " + name + ": " + l);
        }
        if IsCaddy(l) {
          if ingress' != "" && ingress' != name {
            return ingress', Some("multiple ingress service found: " + ingress' + ", " + name);
          }
          ingress' := name;
          seenCaddy := true;
        }
        todo := todo - {l};
      }
      err := None;
    }

    /** The second loop of the rewrite, for one service other than the ingress: every
        caddy label is deleted, the others kept. */
    static method StripCaddy(labels: map<string, string>) returns (labels': map<string, string>)
      ensures labels' == map l | l in labels && !IsCaddy(l) :: labels[l]
    {
      labels' := labels;
      var todo := labels.Keys;
      while todo != {}
        invariant todo <= labels.Keys
        invariant forall l :: l in labels' <==> l in labels && !(l !in todo && IsCaddy(l))
        invariant forall l :: l in labels' ==> labels'[l] == labels[l]
        decreases |todo|
      {
        var l :| l in todo;
        if IsCaddy(l) {
          labels' := labels' - {l};
        }
        todo := todo - {l};
      }
    }

    /** The first loop of the rewrite: every service is checked, in any order. The
        project is accepted exactly when it is `Acceptable`, and the ingress found is
        the one service with caddy labels, or "". */
    static method CheckServices(services: map<string, Service>) returns (ingress: string, err: Option<string>)
      requires "" !in services
      ensures err.None? <==> Acceptable(services)
      ensures err.None? ==> ingress == IngressOf(services)
    {
      ingress := "";
      var todo := services.Keys;
      while todo != {}
        invariant todo <= services.Keys
        invariant forall n :: n in services && n !in todo ==> ServiceOk(services[n])
        invariant ingress == "" <==> forall n :: n in services && n !in todo ==> !HasCaddy(services[n])
        invariant ingress != "" ==> ingress in services && ingress !in todo && HasCaddy(services[ingress])
        invariant forall n :: n in services && n !in todo && HasCaddy(services[n]) ==> n == ingress
        decreases |todo|
      {
        var n :| n in todo;
        var e;
        ghost var prev := ingress;
        ingress, e := CheckService(n, services[n], ingress);
        if e.Some? {
          assert !Acceptable(services) by {
            if ServiceOk(services[n]) {
              assert HasCaddy(services[n]) && HasCaddy(services[prev]);
            }
          }
          return ingress, e;
        }
        todo := todo - {n};
      }
      err := None;
    }

    /** The second loop of the rewrite: every service, in any order, is rewritten
        around `ingress`. */
    static method RewriteServices(services: map<string, Service>, ingress: string, domain: string)
      returns (services': map<string, Service>)
      ensures services' == Rewritten(services, ingress, domain)
    {
      services' := services;
      var todo := services.Keys;
      while todo != {}
        invariant todo <= services.Keys && services'.Keys == services.Keys
        invariant forall n :: n in services' ==>
          services'[n] == if n in todo then services[n] else RewriteService(n, services[n], ingress, domain)
        decreases |todo|
      {
        var n :| n in todo;
        var s := services'[n];
        if n == ingress {
          s := s.(labels := s.labels["caddy" := "http://" + domain]);
        } else {
          var labels := StripCaddy(s.labels);
          s := s.(labels := labels);
        }
        services' := services'[n := s];
        todo := todo - {n};
      }
    }

    /** The label part of the rewrite. A project it refuses is left as it was; one it
        accepts has every service rewritten around the single ingress. */
    method RewriteLabels(domain: string) returns (err: Option<string>)
      requires "" !in services
      modifies this
      ensures networks == old(networks)
      ensures err.None? <==> Acceptable(old(services))
      ensures err.Some? ==> services == old(services)
      ensures err.None? ==> services == Rewritten(old(services), IngressOf(old(services)), domain)
    {
      var ingress;
      ingress, err := CheckServices(services);
      if err.Some? {
        return err;
      }
      services := RewriteServices(services, ingress, domain);
    }

    /** `TransformComposeProject` as written: the labels are rewritten, then a project
        without a `caddy` network is refused, with its labels already rewritten. The
        network is updated on a copy, so the project's networks come out unchanged. */
    method Transform(config: DockerConfig, domain: string) returns (err: Option<string>)
      requires "" !in services
      modifies this
      ensures networks == old(networks)
      ensures err.None? <==> Acceptable(old(services)) && "caddy" in networks
      ensures !Acceptable(old(services)) ==> services == old(services)
      ensures Acceptable(old(services)) ==> services == Rewritten(old(services), IngressOf(old(services)), domain)
      ensures Acceptable(old(services)) && "caddy" !in networks ==> err == Some("caddy network not found")
    {
      err := RewriteLabels(domain);
      if err.Some? {
        return err;
      }
      if "caddy" !in networks {
        return Some("caddy network not found");
      }
      var caddy := networks["caddy"];
      caddy := caddy.(external := true, name := config.networkName);
      return None;
    }

    /** The rewrite as intended: as `Transform`, and the `caddy` network in the project
        itself becomes external under the configured name, its other fields kept. */
    method TransformFixed(config: DockerConfig, domain: string) returns (err: Option<string>)
      requires "" !in services
      modifies this
      ensures err.None? <==> Acceptable(old(services)) && "caddy" in old(networks)
      ensures !Acceptable(old(services)) ==> services == old(services)
      ensures Acceptable(old(services)) ==> services == Rewritten(old(services), IngressOf(old(services)), domain)
      ensures err.Some? ==> networks == old(networks)
      ensures err.None? ==>
        networks == old(networks)["caddy" := old(networks)["caddy"].(external := true, name := config.networkName)]
    {
      err := RewriteLabels(domain);
      if err.Some? {
        return err;
      }
      if "caddy" !in networks {
        return Some("caddy network not found");
      }
      var caddy := networks["caddy"];
      networks := networks["caddy" := caddy.(external := true, name := config.networkName)];
      return None;
    }
  }

  /** A project with one ingress service and an internal `caddy` network: `Transform`
      accepts it and the network stays internal, so the proxy's network is not joined. */
  method NetworkUpdateLost() returns (p: Project, err: Option<string>)
    ensures err.None? && "caddy" in p.networks && !p.networks["caddy"].external
  {
    var web := Service("", map["caddy" := "placeholder"]);
    p := new Project(map["web" := web], map["caddy" := Network("caddy", false, "bridge")]);
    assert HasCaddy(web) by { assert "caddy" in web.labels && IsCaddy("caddy"); }
    assert ServiceOk(web) by { assert !IsNumberedCaddy("caddy"); }
    err := p.Transform(DefaultConfig, "a.inst.localhost");
  }

  /** With the corrected rewrite, the same project joins the external proxy network. */
  method NetworkUpdateKept() returns (p: Project, err: Option<string>)
    ensures err.None? && "caddy" in p.networks && p.networks["caddy"] == Network("caddy", true, "bridge")
  {
    var web := Service("", map["caddy" := "placeholder"]);
    p := new Project(map["web" := web], map["caddy" := Network("caddy", false, "bridge")]);
    assert ServiceOk(web) by { assert !IsNumberedCaddy("caddy"); }
    err := p.TransformFixed(DefaultConfig, "a.inst.localhost");
  }
}
