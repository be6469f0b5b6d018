/**
 * The new-playlist panel: a playlist name checked against the server
 * before the upload and submit sections open, and the reset that follows a
 * submission.
 */
module NewPlaylist {
  import opened Wrappers
  import opened Collections
  import opened Domain
  import opened Browser
  import Api

  datatype NameStatus = Idle | Loading | Valid | Invalid

  /**
   * The status code the name lookup `GET /playlists?name=<name>` answers
   * with; the job rows' keys do not affect it.
   */
  function NameLookupCode(ordered: seq<Playlist>, name: string): int
  {
    match Api.ListPlaylists(ordered, 0, false, 10, Some(name), jobId => jobId)
    case Success(_) => 200
    case Failure(e) => Api.StatusCode(e)
  }

  /** For a non-empty name the lookup answers 404 exactly when no playlist has that name, and 200 otherwise. */
  lemma {:induction false} NameLookupFindsClash(ordered: seq<Playlist>, name: string)
    requires name != ""
    ensures NameLookupCode(ordered, name) == 404 <==> forall k :: 0 <= k < |ordered| ==> ordered[k].name != name
    ensures NameLookupCode(ordered, name) == 404 || NameLookupCode(ordered, name) == 200
  {
    var filter := Some(name);
    var keep := (p: Playlist) => !Api.Truthy(filter) || p.name == filter.value;
    var kept := Filter(ordered, keep);
    if forall k :: 0 <= k < |ordered| ==> ordered[k].name != name {
      FilterNone(ordered, keep);
    } else {
      var k :| 0 <= k < |ordered| && ordered[k].name == name;
      assert keep(ordered[k]);
      assert ordered[k] in kept;
    }
  }

  class NewPlaylistPanel {
    var provisionalName: string
    var playlistName: string
    var inputPath: string
    var submitted: bool
    var alert: Option<Alert>
    var status: NameStatus
    var open: bool

    /** The draft fields hold their initial values. */
    predicate Fresh()
      reads this
    {
      provisionalName == "" && playlistName == "" && inputPath == "" && !submitted && status == Idle
    }

    constructor (open: bool)
      ensures Fresh() && alert.None? && this.open == open
    {
      provisionalName := "";
      playlistName := "";
      inputPath := "";
      submitted := false;
      alert := None;
      status := Idle;
      this.open := open;
    }

    /** The name field's `onChange`. */
    method EditName(text: string)
      modifies this
      ensures provisionalName == text
      ensures playlistName == old(playlistName) && inputPath == old(inputPath) && submitted == old(submitted)
      ensures alert == old(alert) && status == old(status) && open == old(open)
    {
      provisionalName := text;
    }

    /**
     * `handlePlaylistNameChange`, run when the name field loses focus: an
     * empty name goes back to idle without a request; a 404 commits the
     * name; a 200 or a thrown error marks it invalid with an alert; any
     * other status leaves the check loading.
     */
    method CheckName(lookup: Lookup)
      modifies this
      ensures provisionalName == old(provisionalName) && inputPath == old(inputPath)
      ensures submitted == old(submitted) && open == old(open)
      ensures provisionalName == "" ==> status == Idle && playlistName == old(playlistName) && alert == old(alert)
      ensures UploadEnabled() <==> provisionalName != "" && lookup == Status(404)
      ensures provisionalName != "" ==>
        match lookup
        case Status(code) =>
          (code == 404 ==> status == Valid && playlistName == provisionalName && alert == old(alert))
          && (code == 200 ==>
                status == Invalid && playlistName == old(playlistName)
                && alert == Some(Alert(ErrorAlert, "A Playlist with Name (" + provisionalName
                                       + ") already exists, please use a different Playlist Name.", true)))
          && (code != 404 && code != 200 ==> status == Loading && playlistName == old(playlistName) && alert == old(alert))
        case LookupFailed(message) =>
          status == Invalid && playlistName == old(playlistName)
          && alert == Some(Alert(ErrorAlert, "Failed to validate Playlist Name: " + message, true))
    {
      if provisionalName != "" {
        status := Loading;
        match lookup {
          case Status(code) =>
            if code == 404 {
              playlistName := provisionalName;
              status := Valid;
              return;
            } else if code == 200 {
              alert := Some(Alert(ErrorAlert, "A Playlist with Name (" + provisionalName
                + ") already exists, please use a different Playlist Name.", true));
              status := Invalid;
            }
          case LookupFailed(message) =>
            alert := Some(Alert(ErrorAlert, "Failed to validate Playlist Name: " + message, true));
            status := Invalid;
        }
      } else {
        status := Idle;
      }
    }

    /** The upload section is usable only once the name is valid. */
    predicate UploadEnabled()
      reads this
    {
      status == Valid
    }

    /** The submit section also needs an uploaded input. */
    predicate SubmitEnabled()
      reads this
    {
      status == Valid && inputPath != ""
    }

    /** `handleUpload`. */
    method HandleUpload(path: string)
      modifies this
      ensures inputPath == path
      ensures provisionalName == old(provisionalName) && playlistName == old(playlistName)
      ensures submitted == old(submitted) && alert == old(alert) && status == old(status) && open == old(open)
      ensures SubmitEnabled() <==> old(UploadEnabled()) && path != ""
    {
      inputPath := path;
    }

    /** `handlePlaylistSubmit`: record the name and show the success alert. */
    method HandlePlaylistSubmit(name: string)
      modifies this
      ensures playlistName == name && submitted
      ensures alert == Some(Alert(SuccessAlert, "Playlist submitted successfully!", true))
      ensures provisionalName == old(provisionalName) && inputPath == old(inputPath)
      ensures status == old(status) && open == old(open)
    {
      playlistName := name;
      submitted := true;
      alert := Some(Alert(SuccessAlert, "Playlist submitted successfully!", true));
    }

    /** The timer that follows a submission: every draft field back to its initial value, and the panel closed. */
    method ResetAfterSubmit()
      modifies this
      ensures Fresh() && !open && alert == old(alert)
    {
      playlistName := "";
      provisionalName := "";
      status := Idle;
      inputPath := "";
      submitted := false;
      open := false;
    }
  }
}
