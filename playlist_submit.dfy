/**
 * The playlist submission form: an editable list of preset slots and the
 * request that creates the playlist from it.
 */
module PlaylistSubmit {
  import opened Wrappers
  import opened Domain
  import opened Browser

  /** A preset slot: `null` until a preset is picked. */
  type Slot = Option<string>

  /** `n` empty slots: what JavaScript leaves in the gap when an array is written past its end. */
  function Empties(n: nat): (r: seq<Slot>)
    ensures |r| == n && forall k :: 0 <= k < n ==> r[k].None?
  {
    seq(n, _ => None)
  }

  /**
   * `handlePresetSelect(index, value)` on a copy of the list: an index in
   * range is overwritten; one past the end grows the list with empty slots;
   * a negative one only sets a property the list's elements do not include.
   */
  function Select(s: seq<Slot>, index: int, value: string): (r: seq<Slot>)
    ensures 0 <= index < |s| ==>
      |r| == |s| && r[index] == Some(value) && forall k :: 0 <= k < |s| && k != index ==> r[k] == s[k]
    ensures index >= |s| ==>
      |r| == index + 1 && r[..|s|] == s && r[index] == Some(value) && forall k :: |s| <= k < index ==> r[k].None?
    ensures index < 0 ==> r == s
  {
    if index < 0 then s
    else if index < |s| then s[index := Some(value)]
    else s + Empties(index - |s|) + [Some(value)]
  }

  /** `addPreset`: one more empty slot at the end. */
  function AddSlot(s: seq<Slot>): (r: seq<Slot>)
    ensures |r| == |s| + 1 && r[..|s|] == s && r[|s|].None?
  {
    s + [None]
  }

  /** `removePreset(index)`: the list without position `index`, the rest in order. */
  function RemoveSlot(s: seq<Slot>, index: int): (r: seq<Slot>)
    ensures 0 <= index < |s| ==>
      |r| == |s| - 1 && (forall k :: 0 <= k < index ==> r[k] == s[k])
      && forall k :: index <= k < |r| ==> r[k] == s[k + 1]
    ensures !(0 <= index < |s|) ==> r == s
  {
    if 0 <= index < |s| then s[..index] + s[index + 1..] else s
  }

  /** Removing the slot just added gives the list back. */
  lemma RemoveUndoesAdd(s: seq<Slot>)
    ensures RemoveSlot(AddSlot(s), |s|) == s
  {
    assert AddSlot(s)[..|s|] == s;
  }

  /** Overwriting a slot and then removing it is the same as removing it. */
  lemma {:induction false} RemoveForgetsSelect(s: seq<Slot>, index: int, value: string)
    requires 0 <= index < |s|
    ensures RemoveSlot(Select(s, index, value), index) == RemoveSlot(s, index)
  {
    var a, b := RemoveSlot(Select(s, index, value), index), RemoveSlot(s, index);
    assert |a| == |b|;
    forall k | 0 <= k < |a| ensures a[k] == b[k] {
      if k < index {
        assert a[k] == Select(s, index, value)[k] == s[k];
      } else {
        assert a[k] == Select(s, index, value)[k + 1] == s[k + 1];
      }
    }
  }

  /** The body posted to the playlists endpoint: the slots as they are, empty ones included. */
  datatype PlaylistPayload = PlaylistPayload(name: string, inputPath: string, presets: seq<Slot>)

  class PlaylistSubmitForm {
    const playlistName: string
    const inputPath: string
    var selected: seq<Slot>
    var usePreset: bool
    var error: Option<string>
    var submitting: bool
    /** Bodies posted, oldest first. */
    var posted: seq<PlaylistPayload>
    /** Names handed to `onPlaylistSubmit`, oldest first. */
    var submitted: seq<string>

    constructor (playlistName: string, inputPath: string)
      ensures this.playlistName == playlistName && this.inputPath == inputPath
      ensures selected == [None] && usePreset && error.None? && !submitting && posted == [] && submitted == []
    {
      this.playlistName := playlistName;
      this.inputPath := inputPath;
      selected := [None];
      usePreset := true;
      error := None;
      submitting := false;
      posted := [];
      submitted := [];
    }

    method SelectPreset(index: int, value: string)
      modifies this
      ensures selected == Select(old(selected), index, value)
      ensures usePreset == old(usePreset) && error == old(error) && submitting == old(submitting)
      ensures posted == old(posted) && submitted == old(submitted)
    {
      selected := Select(selected, index, value);
    }

    method AddPreset()
      modifies this
      ensures selected == AddSlot(old(selected))
      ensures usePreset == old(usePreset) && error == old(error) && submitting == old(submitting)
      ensures posted == old(posted) && submitted == old(submitted)
    {
      selected := AddSlot(selected);
    }

    method RemovePreset(index: int)
      modifies this
      ensures selected == RemoveSlot(old(selected), index)
      ensures usePreset == old(usePreset) && error == old(error) && submitting == old(submitting)
      ensures posted == old(posted) && submitted == old(submitted)
    {
      selected := RemoveSlot(selected, index);
    }

    /**
     * `handleSubmit`: an empty input path, an empty name or an empty list is
     * refused; otherwise the slots are posted as they are, and on success the
     * list is emptied and the name reported.
     */
    method Submit(reply: Reply<()>)
      modifies this
      ensures inputPath == "" || playlistName == "" || old(selected) == [] ==>
        error == Some("All fields are required") && posted == old(posted) && submitted == old(submitted)
        && selected == old(selected) && usePreset == old(usePreset) && submitting == old(submitting)
      ensures inputPath != "" && playlistName != "" && old(selected) != [] ==>
        posted == old(posted) + [PlaylistPayload(playlistName, inputPath, old(selected))] && !submitting
        && match reply
           case Ok(_) =>
             selected == [] && usePreset && error.None? && submitted == old(submitted) + [playlistName]
           case NotOk(_, text) =>
             error == Some(text) && selected == old(selected) && usePreset == old(usePreset) && submitted == old(submitted)
           case Thrown(message) =>
             error == Some(message) && selected == old(selected) && usePreset == old(usePreset) && submitted == old(submitted)
    {
      if inputPath == "" || playlistName == "" || |selected| == 0 {
        error := Some("All fields are required");
        return;
      }
      submitting := true;
      error := None;
      posted := posted + [PlaylistPayload(playlistName, inputPath, selected)];
      match reply {
        case Ok(_) =>
          submitting := false;
          error := None;
          selected := [];
          usePreset := true;
          submitted := submitted + [playlistName];
        case NotOk(_, text) =>
          error := Some(text);
        case Thrown(message) =>
          error := Some(message);
      }
      submitting := false;
    }
  }
}
