/**
 Operator-owned labels and placement, captured before patches and restored after them
 (internal/manifests/labels.go).
 */
module Identity {
  import opened Pods
  import opened Roles

  const LABEL_YANET := "yanet.yanet-platform.io/yanet"
  const LABEL_BOX_TYPE := "yanet.yanet-platform.io/box-type"
  const LABEL_COMPONENT := "yanet.yanet-platform.io/component"
  const LABEL_NUMA := "yanet.yanet-platform.io/numa"
  const LABEL_NODE := "yanet.yanet-platform.io/node"
  const LABEL_APP := "app"

  predicate IsReserved(key: string) {
    || key in {LABEL_YANET, LABEL_BOX_TYPE, LABEL_COMPONENT, LABEL_NUMA, LABEL_NODE, LABEL_APP}
    || HasPrefix(key, OPERATOR_MEMBERSHIP_PREFIX)
  }

  function ReservedLabels(labels: map<string, string>): map<string, string> {
    map key | key in labels && IsReserved(key) :: labels[key]
  }

  function MergeIdentityLabels(labels: map<string, string>, identity: map<string, string>): map<string, string> {
    (map key | key in labels && !IsReserved(key) :: labels[key]) + identity
  }

  /**
   The rest of the captured identity: what a Deployment is called, who controls it, whom it selects, where its Pods
   are pinned and how it is replaced.
   */
  datatype Anchor = Anchor(
    name: string, namespace: string, owners: seq<string>, selector: map<string, string>,
    nodeName: string, nodeSelector: map<string, string>, strategy: string)
}
