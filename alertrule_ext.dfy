/**
 * Provenance and default-state accessors of an alert rule resource.
 *
 * The provenance status lives in the rule's annotations under the key
 * "grafana.app/provenance"; "none" stands for an unset status. The
 * annotations map may be nil, which reads as empty but must be allocated
 * before it is written.
 */
module AlertRuleExt {
  import opened Basics

  const InternalPrefix := "grafana.app/"
  const ProvenanceStatusAnnotationKey := InternalPrefix + "provenance"
  const ProvenanceStatusNone := "none"
  const DefaultNoDataState := "NoData"
  const DefaultExecErrState := "Error"

  /** An annotations map; None is a nil map. */
  type Annotations = Option<map<string, string>>

  /** The provenance status that annotations record: "" for a nil map, "none"
      when the key is missing or empty, and the stored value otherwise. */
  function ProvenanceOf(a: Annotations): (r: string)
    ensures r == "" <==> a.None?
    ensures a.Some? && r != ProvenanceStatusNone ==>
      ProvenanceStatusAnnotationKey in a.value && a.value[ProvenanceStatusAnnotationKey] == r
    ensures a.Some? && ProvenanceStatusAnnotationKey in a.value && a.value[ProvenanceStatusAnnotationKey] != "" ==>
      r == a.value[ProvenanceStatusAnnotationKey]
  {
    match a
    case None => ""
    case Some(m) =>
      if ProvenanceStatusAnnotationKey !in m || m[ProvenanceStatusAnnotationKey] == "" then ProvenanceStatusNone
      else m[ProvenanceStatusAnnotationKey]
  }

  /** The status SetProvenanceStatus stores for `status`: never empty, "none" in place of "". */
  function StoredStatus(status: string): (r: string)
    ensures r != ""
    ensures status != "" ==> r == status
    ensures status == "" ==> r == ProvenanceStatusNone
  {
    if status == "" then ProvenanceStatusNone else status
  }

  /** The annotations after SetProvenanceStatus(status): allocated if nil, the
      provenance key set, and every other entry as it was. */
  function WithProvenance(a: Annotations, status: string): (r: map<string, string>)
    ensures ProvenanceStatusAnnotationKey in r && r[ProvenanceStatusAnnotationKey] != ""
    ensures status != "" ==> r[ProvenanceStatusAnnotationKey] == status
    ensures forall k :: k != ProvenanceStatusAnnotationKey ==> (k in r <==> a.Some? && k in a.value)
    ensures forall k :: k in r && k != ProvenanceStatusAnnotationKey ==> r[k] == a.value[k]
  {
    var m := if a.None? then map[] else a.value;
    m[ProvenanceStatusAnnotationKey := StoredStatus(status)]
  }

  /** Setting then getting the provenance gives back the status, with "none" for "". */
  lemma SetThenGet(a: Annotations, status: string)
    ensures ProvenanceOf(Some(WithProvenance(a, status))) == (if status == "" then ProvenanceStatusNone else status)
  {
  }

  /** Storing the status the annotations already report leaves the reported
      status alone, except on a nil map: that reads as "", and storing "" makes
      it read "none". */
  lemma SetCurrentKeepsStatus(a: Annotations)
    ensures a.Some? ==> ProvenanceOf(Some(WithProvenance(a, ProvenanceOf(a)))) == ProvenanceOf(a)
    ensures a.None? ==> ProvenanceOf(Some(WithProvenance(a, ProvenanceOf(a)))) == ProvenanceStatusNone
  {
  }

  /** The fields of an alert rule's spec that have defaults here. */
  datatype AlertRuleSpec = AlertRuleSpec(noDataState: string, execErrState: string)

  /** The no-data state, "NoData" when unset. */
  function NoDataStateOrDefault(s: AlertRuleSpec): (r: string)
    ensures r != ""
    ensures s.noDataState != "" ==> r == s.noDataState
    ensures s.noDataState == "" ==> r == DefaultNoDataState
  {
    if s.noDataState == "" then DefaultNoDataState else s.noDataState
  }

  /** The execution-error state, "Error" when unset. */
  function ExecErrStateOrDefault(s: AlertRuleSpec): (r: string)
    ensures r != ""
    ensures s.execErrState != "" ==> r == s.execErrState
    ensures s.execErrState == "" ==> r == DefaultExecErrState
  {
    if s.execErrState == "" then DefaultExecErrState else s.execErrState
  }

  /** An alert rule: its annotations (from its object metadata) and its spec. */
  class AlertRule {
    var annotations: Annotations
    var spec: AlertRuleSpec

    constructor (annotations: Annotations, spec: AlertRuleSpec)
      ensures this.annotations == annotations && this.spec == spec
    {
      this.annotations := annotations;
      this.spec := spec;
    }

    /** SetProvenanceStatus: allocate the annotations if nil and store the
        status, "none" in place of "". */
    method SetProvenanceStatus(status: string)
      modifies this
      ensures annotations == Some(WithProvenance(old(annotations), status))
      ensures spec == old(spec)
      ensures GetProvenanceStatus(this) == (if status == "" then ProvenanceStatusNone else status)
    {
      if annotations.None? {
        annotations := Some(map[]);
      }
      var s := status;
      if s == "" {
        s := ProvenanceStatusNone;
      }
      annotations := Some(annotations.value[ProvenanceStatusAnnotationKey := s]);
    }
  }

  /** GetProvenanceStatus: "" for a nil rule or nil annotations; otherwise
      the recorded status, never "". */
  function GetProvenanceStatus(o: AlertRule?): (r: string)
    reads o
    ensures r == "" <==> o == null || o.annotations.None?
  {
    if o == null then "" else ProvenanceOf(o.annotations)
  }
}
