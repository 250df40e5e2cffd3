/**
 Routing watch events back to the IstioCSR they concern (pkg/controller/istiocsr/controller.go),
 and the labels that make it work (pkg/controller/istiocsr/utils.go, deployments.go).
 */
module EventRouting {
  import opened Strings
  import opened ClusterRbac

  const WATCH_LABEL := "istiocsr.openshift.operator.io/watched-by"
  const OBJECT_NAME := "default"

  datatype Request = Request(name: string, namespace: string)

  /** An object as an event shows it. */
  datatype Event = Event(namespace: string, labels: Labels)

  function Value(labels: Labels, key: string): string {
    if key in labels then labels[key] else ""
  }

  /** The requests an event leads to: one, for the instance in the namespace found, or none. */
  function MapFunc(event: Event): seq<Request> {
    var mapped := Value(event.labels, MAPPING_LABEL);
    var namespace := if mapped == "" then event.namespace else mapped;
    if Value(event.labels, APP_LABEL) == APP_VALUE then
      if namespace != "" then [Request(OBJECT_NAME, namespace)] else []
    else
      var watched := Value(event.labels, WATCH_LABEL);
      if watched == "" then []
      else
        var key := Split(watched, '_');
        if |key| != 2 || key[0] == "" then [] else [Request(OBJECT_NAME, key[0])]
  }

  function WatchLabelValue(namespace: string, name: string): string {
    namespace + "_" + name
  }

  /** `updateWatchLabel` on an object of somebody else. */
  function WatchLabelled(event: Event, namespace: string, name: string): Event {
    event.(labels := event.labels[WATCH_LABEL := WatchLabelValue(namespace, name)])
  }

  lemma SplitWatchLabel(namespace: string, name: string)
    ensures |Split(WatchLabelValue(namespace, name), '_')| == 2 <==> '_' !in namespace && '_' !in name
    ensures '_' !in namespace ==> Split(WatchLabelValue(namespace, name), '_')[0] == namespace
  {
    var s := WatchLabelValue(namespace, name);
    SplitCount(s, '_');
    assert multiset(s)['_'] == multiset(namespace)['_'] + 1 + multiset(name)['_'];
    SplitCutsOnce(s, '_');
    if '_' !in namespace {
      BeforeAppend(namespace, '_', name);
    }
  }

  /**
   The label written on a watched object leads back to the instance exactly when neither
   part contains the separator; namespaces, being RFC 1123 labels, never do.
   */
  lemma WatchedObjectsRoute(event: Event, namespace: string, name: string)
    requires Value(event.labels, APP_LABEL) != APP_VALUE && namespace != ""
    ensures WatchLabelled(event, namespace, name) == Event(event.namespace, event.labels["istiocsr.openshift.operator.io/watched-by" := namespace + "_" + name])
    ensures MapFunc(WatchLabelled(event, namespace, name)) == [Request("default", namespace)]
            <==> '_' !in namespace && '_' !in name
  {
    assert WATCH_LABEL[0] != APP_LABEL[0] && WATCH_LABEL[0] != MAPPING_LABEL[0];
    SplitWatchLabel(namespace, name);
    var labelled := WatchLabelled(event, namespace, name);
    assert Value(labelled.labels, APP_LABEL) == Value(event.labels, APP_LABEL);
    assert Value(labelled.labels, WATCH_LABEL) == WatchLabelValue(namespace, name) != "";
  }

  /** Objects that are neither the controller's nor watch-labelled lead nowhere, and no event leads to two requests. */
  lemma OthersAreIgnored(event: Event)
    ensures !("app" in event.labels && event.labels["app"] == "cert-manager-istio-csr")
            && ("istiocsr.openshift.operator.io/watched-by" in event.labels ==> event.labels["istiocsr.openshift.operator.io/watched-by"] == "")
            ==> MapFunc(event) == []
    ensures |MapFunc(event)| <= 1
  {
    assert APP_VALUE != "";
  }

  /** Resources built with the mapping label route home from any namespace, whatever the user labels say. */
  lemma MappedResourcesRoute(d: Desired, home: string, objectNamespace: string)
    requires home != ""
    ensures MapFunc(Event(objectNamespace, DesiredLabels(d, home))) == [Request("default", home)]
  {
    DesiredIsMine(d, home);
  }

  /** Resources in the instance's own namespace carry no mapping label of the controller's. */
  function HomeLabels(d: Desired): Labels {
    d.userLabels + DefaultLabels(d.version)
  }

  /** They route home exactly when the user labels do not redirect them through the mapping key. */
  lemma HomeResourcesRoute(d: Desired, home: string)
    requires home != ""
    ensures MapFunc(Event(home, HomeLabels(d))) == [Request("default", home)]
            <==> Value(d.userLabels, MAPPING_LABEL) in {"", home}
  {
    assert forall k :: k in DefaultLabels(d.version) ==> k[0] == 'a';
    assert MAPPING_LABEL[0] == 'c';
    assert Value(HomeLabels(d), MAPPING_LABEL) == Value(d.userLabels, MAPPING_LABEL);
    assert Value(HomeLabels(d), APP_LABEL) == APP_VALUE;
  }
}
