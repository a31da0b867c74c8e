/** `RunCheckResponse`: a plain record with two factories. Java's fresh
    allocation becomes a new datatype value; every field is a nullable
    string. */
module RunCheckResponse {
  import opened Wrappers

  datatype RunCheckResponse = RunCheckResponse(
    status: Option<string>,
    namespace: Option<string>,
    jobName: Option<string>,
    uid: Option<string>,
    message: Option<string>)

  /** `ok`: every argument copied verbatim into its field. */
  function Ok(status: Option<string>, ns: Option<string>, name: Option<string>,
              uid: Option<string>, msg: Option<string>): (r: RunCheckResponse)
    ensures r.status == status && r.namespace == ns && r.jobName == name
    ensures r.uid == uid && r.message == msg
  {
    RunCheckResponse(status, ns, name, uid, msg)
  }

  /** `error`: status "ERROR", namespace, name and message copied, uid left
      null. */
  function Error(ns: Option<string>, name: Option<string>, msg: Option<string>): (r: RunCheckResponse)
    ensures r.status == Some("ERROR")
    ensures r.namespace == ns && r.jobName == name && r.message == msg
    ensures r.uid.None?
  {
    RunCheckResponse(Some("ERROR"), ns, name, None, msg)
  }

  /** `error(ns, name, msg)` is `ok("ERROR", ns, name, null, msg)`. */
  lemma ErrorIsOkWithoutUid(ns: Option<string>, name: Option<string>, msg: Option<string>)
    ensures Error(ns, name, msg) == Ok(Some("ERROR"), ns, name, None, msg)
  {
  }
}
