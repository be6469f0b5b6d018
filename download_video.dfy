/**
 * The download button of the job page: it asks for a signed link once the
 * job has completed and then shows the link in its place.
 */
module DownloadVideo {
  import opened Wrappers
  import opened Browser

  /** The generate button is disabled while a request is in flight or the job has not completed. */
  predicate ButtonDisabled(loading: bool, jobStatus: string)
  {
    loading || jobStatus != "completed"
  }

  class DownloadButton {
    const outputPath: string
    var signedUrl: Option<string>
    var loading: bool
    /** Texts shown with `alert`, oldest first. */
    var alerts: seq<string>
    /** Paths asked for a signed link, oldest first. */
    var requested: seq<string>

    constructor (outputPath: string)
      ensures this.outputPath == outputPath && signedUrl.None? && !loading && alerts == [] && requested == []
    {
      this.outputPath := outputPath;
      signedUrl := None;
      loading := false;
      alerts := [];
      requested := [];
    }

    /** The link replaces the button once a non-empty URL is stored (the render tests its truthiness). */
    predicate ShowsLink()
      reads this
    {
      signedUrl.Some? && signedUrl.value != ""
    }

    /** `handleClick`: ask for a signed link; keep the URL on success, alert otherwise; never stay loading. */
    method Click(reply: Reply<string>)
      modifies this
      ensures requested == old(requested) + [outputPath] && !loading
      ensures !ButtonDisabled(loading, "completed") && ButtonDisabled(loading, "in-progress")
      ensures match reply
        case Ok(url) => signedUrl == Some(url) && alerts == old(alerts) && (ShowsLink() <==> url != "")
        case NotOk(_, text) => signedUrl == old(signedUrl) && alerts == old(alerts) + ["Error: " + text]
        case Thrown(message) => signedUrl == old(signedUrl) && alerts == old(alerts) + ["Error: " + message]
    {
      loading := true;
      requested := requested + [outputPath];
      match reply {
        case Ok(url) =>
          signedUrl := Some(url);
        case NotOk(_, text) =>
          alerts := alerts + ["Error: " + text];
        case Thrown(message) =>
          alerts := alerts + ["Error: " + message];
      }
      loading := false;
    }
  }
}
