/**
 * The built-in presets the API seeds at start-up: fourteen scale-and-encode
 * pipelines between MP4 and Matroska, each inserted only when no preset of
 * the same name exists yet.
 */
module Seeding {
  import opened Wrappers
  import opened Text
  import opened Domain
  import opened Pipelines
  import opened Api
  import TranscodeWorker

  /** The parameters of a built-in launch line. */
  datatype Launch = Launch(demux: string, mux: string, width: string, height: string,
                           encoder: string, bitrate: string, parser: string)

  /** One entry of the seed list. */
  datatype SeedEntry = SeedEntry(name: string, inputType: string, outputType: string, launch: Launch)
  {
    function Pipeline(): string
    {
      PipelineTemplate(launch.demux, launch.mux, launch.width, launch.height, launch.encoder, launch.bitrate, launch.parser)
    }

    /** The row `Preset.create(**preset)` inserts for this entry. */
    function AsPreset(id: string): Preset
    {
      Preset(id, name, inputType, outputType, None, None, None, None, None, Pipeline())
    }
  }

  function Mp4In(): string { "qtdemux" }
  function MkvIn(): string { "matroskademux" }
  function Mp4Out(): string { "mp4mux" }
  function MkvOut(): string { "matroskamux" }

  function H265(demux: string, mux: string, width: string, height: string, bitrate: string): Launch
  {
    Launch(demux, mux, width, height, "x265enc", bitrate, "h265parse")
  }

  function H264(demux: string, mux: string, width: string, height: string, bitrate: string): Launch
  {
    Launch(demux, mux, width, height, "x264enc", bitrate, "h264parse")
  }

  /** The seed list, in order. */
  function SeedEntries(): seq<SeedEntry>
  {
    [SeedEntry("Scale to 1080p x265 (1.5 mbit) mp4->mp4", "mp4", "mp4", H265(Mp4In(), Mp4Out(), "1920", "1080", "1536")),
     SeedEntry("Scale to 720p x265 (1 mbit) mp4->mp4", "mp4", "mp4", H265(Mp4In(), Mp4Out(), "1280", "720", "1024")),
     SeedEntry("Scale to 720p x264 (1 mbit) mp4->mp4", "mp4", "mp4", H264(Mp4In(), Mp4Out(), "1280", "720", "1536")),
     SeedEntry("Scale to 480p x265 (756 kbit) mp4->mp4", "mp4", "mp4", H265(Mp4In(), Mp4Out(), "640", "480", "768")),
     SeedEntry("Scale to 1080p x265 (1.5 mbit) mp4->mkv", "mp4", "mkv", H265(Mp4In(), MkvOut(), "1920", "1080", "1536")),
     SeedEntry("Scale to 720p x265 (1 mbit) mp4->mkv", "mp4", "mkv", H265(Mp4In(), MkvOut(), "1280", "720", "1024")),
     SeedEntry("Scale to 480p x265 (756 kbit) mp4->mkv", "mp4", "mkv", H265(Mp4In(), MkvOut(), "640", "480", "768")),
     SeedEntry("Scale to 1080p x265 (1.5 mbit) mkv->mp4", "mkv", "mp4", H265(MkvIn(), Mp4Out(), "1920", "1080", "1536")),
     SeedEntry("Scale to 720p x265 (1 mbit) mkv->mp4", "mkv", "mp4", H265(MkvIn(), Mp4Out(), "1280", "720", "1024")),
     SeedEntry("Scale to 720p x264 (2 mbit) mkv->mp4", "mkv", "mp4", H264(MkvIn(), Mp4Out(), "1280", "720", "1024")),
     SeedEntry("Scale to 480p x265 (756 kbit) mkv->mp4", "mkv", "mp4", H265(MkvIn(), Mp4Out(), "640", "480", "768")),
     SeedEntry("Scale to 1080p x265 (1.5 mbit) mkv->mkv", "mkv", "mkv", H265(MkvIn(), MkvOut(), "1920", "1080", "1536")),
     SeedEntry("Scale to 720p x265 (1 mbit) mkv->mkv", "mkv", "mkv", H265(MkvIn(), MkvOut(), "1280", "720", "1024")),
     SeedEntry("Scale to 480p x265 (756 kbit) mkv->mkv", "mkv", "mkv", H265(MkvIn(), MkvOut(), "640", "480", "768"))]
  }

  /** No two seed entries share a name. */
  lemma SeedNamesDistinct()
    ensures |SeedEntries()| == 14
    ensures forall i, j :: 0 <= i < j < |SeedEntries()| ==> SeedEntries()[i].name != SeedEntries()[j].name
  {
  }

  /** Every seed entry converts between MP4 and Matroska, and its name says which way. */
  lemma SeedTypes()
    ensures forall i :: 0 <= i < |SeedEntries()| ==>
      var e := SeedEntries()[i];
      (e.inputType == "mp4" || e.inputType == "mkv") && (e.outputType == "mp4" || e.outputType == "mkv")
      && (e.inputType == "mp4" <==> e.launch.demux == Mp4In())
      && (e.outputType == "mp4" <==> e.launch.mux == Mp4Out())
  {
  }

  /** Every seed pipeline carries the input, output and progress placeholders. */
  lemma SeedPlaceholders(i: int, h: Hole)
    requires 0 <= i < |SeedEntries()|
    ensures Contains(SeedEntries()[i].Pipeline(), Placeholder(h))
  {
    var l := SeedEntries()[i].launch;
    TemplateHasPlaceholders(l.demux, l.mux, l.width, l.height, l.encoder, l.bitrate, l.parser, h);
  }

  predicate LaunchBraceless(l: Launch)
  {
    '{' !in l.demux && '{' !in l.mux && '{' !in l.width && '{' !in l.height
    && '{' !in l.encoder && '{' !in l.bitrate && '{' !in l.parser
  }

  lemma {:induction false} LaunchAtomsBraceless(demux: string, mux: string, width: string, height: string, bitrate: string)
    requires demux == Mp4In() || demux == MkvIn()
    requires mux == Mp4Out() || mux == MkvOut()
    requires (width, height) in {("1920", "1080"), ("1280", "720"), ("640", "480")}
    requires bitrate in {"1536", "1024", "768"}
    ensures LaunchBraceless(H265(demux, mux, width, height, bitrate))
                && LaunchBraceless(H264(demux, mux, width, height, bitrate))
  {
    assert '{' !in Mp4In() && '{' !in MkvIn() && '{' !in Mp4Out() && '{' !in MkvOut();
    assert '{' !in "x265enc" && '{' !in "x264enc" && '{' !in "h265parse" && '{' !in "h264parse";
  }

  /** No seed parameter holds a `{`. */
  lemma SeedLaunchBraceless(i: int)
    requires 0 <= i < |SeedEntries()|
    ensures LaunchBraceless(SeedEntries()[i].launch)
  {
    var l := SeedEntries()[i].launch;
    LaunchAtomsBraceless(l.demux, l.mux, l.width, l.height, l.bitrate);
  }

  /**
   * A worker handed a seeded pipeline and paths without a `{` runs the
   * launch line with the paths and the progress element in their slots.
   */
  lemma SeedPipelineSubstitutes(i: int, input: string, output: string)
    requires 0 <= i < |SeedEntries()|
    requires '{' !in input && '{' !in output
    ensures var l := SeedEntries()[i].launch;
      var line := TranscodeWorker.Substitute(SeedEntries()[i].Pipeline(), input, output);
      line == Render(TemplatePieces(l.demux, l.mux, l.width, l.height, l.encoder, l.bitrate, l.parser),
                     Fill(input, output, TranscodeWorker.ProgressElement))
      && Contains(line, input) && Contains(line, output) && Contains(line, TranscodeWorker.ProgressElement)
  {
    var l := SeedEntries()[i].launch;
    SeedLaunchBraceless(i);
    TranscodeWorker.SubstituteBuiltIn(l.demux, l.mux, l.width, l.height, l.encoder, l.bitrate, l.parser, input, output);
    var ps := TemplatePieces(l.demux, l.mux, l.width, l.height, l.encoder, l.bitrate, l.parser);
    var f := Fill(input, output, TranscodeWorker.ProgressElement);
    RenderContainsSlot(ps, f, 1);
    RenderContainsSlot(ps, f, 3);
    RenderContainsSlot(ps, f, 5);
  }

  // ---------------------------------------------------------------- the insert-if-absent loop

  /** Some preset in the table is called `name`. */
  predicate NameIn(presets: map<string, Preset>, name: string)
  {
    exists id :: id in presets && presets[id].name == name
  }

  /** The generated ids: all new and all different. */
  predicate FreshIds(presets: map<string, Preset>, ids: seq<string>)
  {
    (forall k :: 0 <= k < |ids| ==> ids[k] !in presets)
    && forall j, k :: 0 <= j < k < |ids| ==> ids[j] != ids[k]
  }

  /** The table after seeding `entries` in order, entry `k` getting id `ids[k]` if it is inserted. */
  function Seeded(presets: map<string, Preset>, entries: seq<SeedEntry>, ids: seq<string>): map<string, Preset>
    requires |ids| == |entries|
    decreases |entries|
  {
    if entries == [] then presets
    else
      var n := |entries| - 1;
      var before := Seeded(presets, entries[..n], ids[..n]);
      if NameIn(before, entries[n].name) then before else before[ids[n] := entries[n].AsPreset(ids[n])]
  }

  /** Seeding only adds rows, under the generated ids, and leaves every existing row as it was. */
  lemma {:induction false} SeededKeepsRows(presets: map<string, Preset>, entries: seq<SeedEntry>, ids: seq<string>)
    requires |ids| == |entries| && FreshIds(presets, ids)
    ensures forall id :: id in Seeded(presets, entries, ids) ==> id in presets || id in ids
    ensures forall id :: id in presets ==> id in Seeded(presets, entries, ids) && Seeded(presets, entries, ids)[id] == presets[id]
    decreases |entries|
  {
    if entries != [] {
      var n := |entries| - 1;
      assert FreshIds(presets, ids[..n]);
      SeededKeepsRows(presets, entries[..n], ids[..n]);
      assert ids[n] !in presets;
    }
  }

  /** A table that already has every seed name is left alone. */
  lemma {:induction false} SeededNoop(presets: map<string, Preset>, entries: seq<SeedEntry>, ids: seq<string>)
    requires |ids| == |entries|
    requires forall i :: 0 <= i < |entries| ==> NameIn(presets, entries[i].name)
    ensures Seeded(presets, entries, ids) == presets
    decreases |entries|
  {
    if entries != [] {
      var n := |entries| - 1;
      SeededNoop(presets, entries[..n], ids[..n]);
    }
  }

  /** After seeding, every entry's name is in the table. */
  lemma {:induction false} SeededHasNames(presets: map<string, Preset>, entries: seq<SeedEntry>, ids: seq<string>)
    requires |ids| == |entries| && FreshIds(presets, ids)
    ensures forall i :: 0 <= i < |entries| ==> NameIn(Seeded(presets, entries, ids), entries[i].name)
    decreases |entries|
  {
    if entries != [] {
      var n := |entries| - 1;
      var before := Seeded(presets, entries[..n], ids[..n]);
      var after := Seeded(presets, entries, ids);
      assert FreshIds(presets, ids[..n]);
      SeededHasNames(presets, entries[..n], ids[..n]);
      SeededKeepsRows(presets, entries[..n], ids[..n]);
      assert ids[n] !in before;
      forall i | 0 <= i < |entries| ensures NameIn(after, entries[i].name) {
        if i < n {
          assert entries[..n][i] == entries[i];
          var id :| id in before && before[id].name == entries[i].name;
          assert id in after && after[id] == before[id];
        } else if !NameIn(before, entries[n].name) {
          assert after[ids[n]].name == entries[n].name;
        }
      }
    }
  }

  /** Seeding twice gives the same table as seeding once. */
  lemma SeedingIdempotent(presets: map<string, Preset>, ids1: seq<string>, ids2: seq<string>)
    requires |ids1| == |SeedEntries()| == |ids2| && FreshIds(presets, ids1)
    ensures Seeded(Seeded(presets, SeedEntries(), ids1), SeedEntries(), ids2) == Seeded(presets, SeedEntries(), ids1)
  {
    SeededHasNames(presets, SeedEntries(), ids1);
    SeededNoop(Seeded(presets, SeedEntries(), ids1), SeedEntries(), ids2);
  }

  /** Inserts each entry whose name is not taken yet, in order. */
  method InsertAbsent(server: Server, entries: seq<SeedEntry>, ids: seq<string>)
    requires |ids| == |entries|
    modifies server
    ensures server.presets == Seeded(old(server.presets), entries, ids)
    ensures server.jobs == old(server.jobs) && server.playlists == old(server.playlists) && server.queue == old(server.queue)
  {
    var i := 0;
    while i < |entries|
      invariant 0 <= i <= |entries|
      invariant server.presets == Seeded(old(server.presets), entries[..i], ids[..i])
      invariant server.jobs == old(server.jobs) && server.playlists == old(server.playlists) && server.queue == old(server.queue)
    {
      var entry := entries[i];
      assert entries[..i + 1][..i] == entries[..i] && ids[..i + 1][..i] == ids[..i];
      if !NameIn(server.presets, entry.name) {
        server.presets := server.presets[ids[i] := entry.AsPreset(ids[i])];
      }
      i := i + 1;
    }
    assert entries[..i] == entries && ids[..i] == ids;
  }

  /** `seed_presets`: seed the built-in list. */
  method SeedPresets(server: Server, ids: seq<string>)
    requires |ids| == |SeedEntries()|
    modifies server
    ensures server.presets == Seeded(old(server.presets), SeedEntries(), ids)
    ensures server.jobs == old(server.jobs) && server.playlists == old(server.playlists) && server.queue == old(server.queue)
  {
    InsertAbsent(server, SeedEntries(), ids);
  }
}
