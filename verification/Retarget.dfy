/** Retargeting a manifest: the one place where name, pod labels and selectors are tied together. */
module Retarget {
  import opened Manifests
  import opened WeightMerge
  import C = Cluster
  import Release

  function Under(m: Fields, key: string): Fields { MapValue(At(m, key)) }

  function NameOf(m: Fields): Value { At(Under(m, "metadata"), "name") }

  /** The labels that a Deployment puts on its pods. */
  function PodLabels(m: Fields): Fields {
    Under(Under(Under(Under(m, "spec"), "template"), "metadata"), "labels")
  }

  /** The labels that a Deployment looks for on its pods. */
  function OwnSelector(m: Fields): Fields {
    Under(Under(Under(m, "spec"), "selector"), "matchLabels")
  }

  /** The labels that a Service looks for. */
  function Selector(m: Fields): Fields { Under(Under(m, "spec"), "selector") }

  /** A selector finds pods that have all of its labels. */
  predicate Finds(selector: Fields, labels: Fields) {
    forall k :: k in selector ==> k in labels && labels[k] == selector[k]
  }

  /** The manifest is what the release model calls `C.Deployment(name, app, _)`. */
  predicate IsDeployment(m: Fields, name: string, app: string) {
    NameOf(m) == Str(name) && At(PodLabels(m), "app") == Str(app)
  }

  /** The manifest is what the release model calls `C.Service(name, app)`. */
  predicate IsService(m: Fields, name: string, app: string) {
    NameOf(m) == Str(name) && At(Selector(m), "app") == Str(app)
  }

  /** The labels under `metadata` have this app, and nothing else there but the fields of `keys` differs. */
  predicate Labelled(a: Fields, b: Fields, app: string, keys: set<string>) {
    && Under(Under(b, "metadata"), "labels") == Under(Under(a, "metadata"), "labels")["app" := Str(app)]
    && SameBut(Under(a, "metadata"), Under(b, "metadata"), keys)
  }

  /** What a container runs. */
  function Images(containers: Value): seq<Value> {
    if containers.Arr? then
      seq(|containers.items|, i requires 0 <= i < |containers.items| => At(MapValue(containers.items[i]), "image"))
    else []
  }

  /** The software in the pods: the images of their containers. */
  function Revision(m: Fields): seq<Value> {
    Images(At(Under(Under(Under(m, "spec"), "template"), "spec"), "containers"))
  }

  class Manifest {
    var root: Fields

    constructor (root: Fields)
      ensures this.root == root
    {
      this.root := root;
    }

    /** RetargetDeployment: another name and app, the same software. */
    method RetargetDeployment(name: string, app: string, replicas: int)
      modifies this
      ensures IsDeployment(root, name, app) && Revision(root) == Revision(old(root))
      ensures Finds(OwnSelector(old(root)), PodLabels(old(root))) ==> Finds(OwnSelector(root), PodLabels(root))
      ensures OwnSelector(root) == OwnSelector(old(root))["app" := Str(app)]
      ensures PodLabels(root) == PodLabels(old(root))["app" := Str(app)]
      ensures At(Under(root, "spec"), "replicas") == Whole(if replicas <= 0 then 1 else replicas)
      ensures SameBut(old(root), root, {"metadata", "spec"}) && Labelled(old(root), root, app, {"name", "labels"})
      ensures SameBut(Under(old(root), "spec"), Under(root, "spec"), {"replicas", "selector", "template"})
      ensures var a, b := Under(Under(old(root), "spec"), "selector"), Under(Under(root, "spec"), "selector");
              SameBut(a, b, {"matchLabels"})
      ensures TemplateKept(Under(Under(old(root), "spec"), "template"), Under(Under(root, "spec"), "template"), app)
    {
      SetNameAndLabel(name, app);
      var spec := RetargetSpec(Under(root, "spec"), app, replicas);
      root := root["spec" := Obj(spec)];
      OwnPodsStay(OwnSelector(old(root)), PodLabels(old(root)), app);
      RenamedRunsTheSame(Under(Under(Under(old(root), "spec"), "template"), "spec"),
                         Under(Under(Under(root, "spec"), "template"), "spec"), app);
    }

    /** RetargetService. */
    method RetargetService(name: string, app: string)
      modifies this
      ensures IsService(root, name, app)
      ensures Selector(root) == Selector(old(root))["app" := Str(app)]
      ensures SameBut(old(root), root, {"metadata", "spec"}) && Labelled(old(root), root, app, {"name", "labels"})
      ensures SameBut(Under(old(root), "spec"), Under(root, "spec"), {"selector"})
    {
      SetNameAndLabel(name, app);
      var spec := Under(root, "spec");
      spec := spec["selector" := Obj(Under(spec, "selector")["app" := Str(app)])];
      root := root["spec" := Obj(spec)];
    }

    /** The metadata part, which both share. */
    method SetNameAndLabel(name: string, app: string)
      modifies this
      ensures NameOf(root) == Str(name) && Labelled(old(root), root, app, {"name", "labels"})
      ensures SameBut(old(root), root, {"metadata"}) && At(root, "spec") == At(old(root), "spec")
    {
      var meta := Under(root, "metadata");
      meta := meta["name" := Str(name)];
      meta := meta["labels" := Obj(Under(meta, "labels")["app" := Str(app)])];
      root := root["metadata" := Obj(meta)];
    }
  }

  /** A Deployment's own selector, its pod template and its replicas. */
  method RetargetSpec(was: Fields, app: string, replicas: int) returns (spec: Fields)
    ensures At(spec, "replicas") == Whole(if replicas <= 0 then 1 else replicas)
    ensures Under(Under(spec, "selector"), "matchLabels")
            == Under(Under(was, "selector"), "matchLabels")["app" := Str(app)]
    ensures SameBut(Under(was, "selector"), Under(spec, "selector"), {"matchLabels"})
    ensures TemplateKept(Under(was, "template"), Under(spec, "template"), app)
    ensures SameBut(was, spec, {"replicas", "selector", "template"})
  {
    spec := was["replicas" := Whole(if replicas <= 0 then 1 else replicas)];
    var selector := Under(spec, "selector");
    selector := selector["matchLabels" := Obj(Under(selector, "matchLabels")["app" := Str(app)])];
    spec := spec["selector" := Obj(selector)];
    var template := RetargetTemplate(Under(spec, "template"), app);
    spec := spec["template" := Obj(template)];
  }

  /** The first container, if there is one, is called `app`; the others, and all else of them, are as they were. */
  predicate FirstRenamed(a: Value, b: Value, app: string) {
    if a.Arr? && a.items != [] && a.items[0].Obj? then
      b == Arr([Obj(a.items[0].fields["name" := Str(app)])] + a.items[1..])
    else b == a
  }

  /** A pod template with another app label and another name for its first container. */
  predicate TemplateKept(a: Fields, b: Fields, app: string) {
    && SameBut(a, b, {"metadata", "spec"}) && Labelled(a, b, app, {"labels"})
    && SameBut(Under(a, "spec"), Under(b, "spec"), {"containers"})
    && FirstRenamed(At(Under(a, "spec"), "containers"), At(Under(b, "spec"), "containers"), app)
  }

  /** The pod template: its label, and the name of its first container. */
  method RetargetTemplate(was: Fields, app: string) returns (template: Fields)
    ensures TemplateKept(was, template, app)
  {
    template := was;
    var meta := Under(template, "metadata");
    meta := meta["labels" := Obj(Under(meta, "labels")["app" := Str(app)])];
    template := template["metadata" := Obj(meta)];
    var spec := Under(template, "spec");
    var containers := At(spec, "containers");
    if containers.Arr? && containers.items != [] && containers.items[0].Obj? {
      var first := Obj(containers.items[0].fields["name" := Str(app)]);
      spec := spec["containers" := Arr(containers.items[0 := first])];
      assert containers.items[0 := first] == [first] + containers.items[1..];
    }
    template := template["spec" := Obj(spec)];
  }

  lemma RenamedRunsTheSame(a: Fields, b: Fields, app: string)
    requires FirstRenamed(At(a, "containers"), At(b, "containers"), app)
    ensures Images(At(b, "containers")) == Images(At(a, "containers"))
  {
    var c, d := At(a, "containers"), At(b, "containers");
    if c.Arr? && c.items != [] && c.items[0].Obj? {
      assert d.items[1..] == c.items[1..];
      forall i | 0 <= i < |c.items| ensures At(MapValue(d.items[i]), "image") == At(MapValue(c.items[i]), "image") {
        if i > 0 { assert d.items[1..][i - 1] == c.items[1..][i - 1]; }
      }
    }
  }

  /**
   * A retargeted Service finds the pods of a retargeted Deployment exactly when both were given the same app, and
   * the rest of its selector did so before. This is what stands behind comparing app labels only.
   */
  lemma RetargetedFindsIff(selector: Fields, labels: Fields, a: string, b: string)
    ensures Finds(selector["app" := Str(a)], labels["app" := Str(b)]) <==>
            a == b && Finds(selector - {"app"}, labels)
  {
    var s, l := selector["app" := Str(a)], labels["app" := Str(b)];
    if Finds(s, l) {
      assert "app" in s && l["app"] == s["app"];
      forall k | k in selector - {"app"} ensures k in labels && labels[k] == selector[k] {
        assert k in s;
      }
    }
  }

  /** So a Deployment that finds its own pods still does, whatever it is retargeted to. */
  lemma OwnPodsStay(selector: Fields, labels: Fields, app: string)
    ensures Finds(selector, labels) ==> Finds(selector["app" := Str(app)], labels["app" := Str(app)])
  {
    RetargetedFindsIff(selector, labels, app, app);
  }

  /**
   * The stable side of a first canary deploy, and the two of every slot: a Service and a Deployment of one template,
   * retargeted to one name. They are what the release model asks of a template, and the Service finds the
   * Deployment's pods exactly when it did so before, its app label aside.
   */
  method RetargetPair(deployment: Manifest, service: Manifest, name: string, replicas: int)
    requires deployment != service && name != ""
    modifies deployment, service
    ensures IsDeployment(deployment.root, name, name) && IsService(service.root, name, name)
    ensures Revision(deployment.root) == Revision(old(deployment.root))
    ensures forall revision :: Release.TemplateOK([C.Service(name, name), C.Deployment(name, name, revision)], name)
    ensures Finds(Selector(service.root), PodLabels(deployment.root)) <==>
              Finds(Selector(old(service.root)) - {"app"}, PodLabels(old(deployment.root)))
  {
    service.RetargetService(name, name);
    deployment.RetargetDeployment(name, name, replicas);
    RetargetedFindsIff(Selector(old(service.root)), PodLabels(old(deployment.root)), name, name);
    PairIsTemplate(name);
  }

  lemma PairIsTemplate(name: string)
    requires name != ""
    ensures forall revision :: Release.TemplateOK([C.Service(name, name), C.Deployment(name, name, revision)], name)
  {
  }
}
