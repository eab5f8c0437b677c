// app/beats_editor.py: the edited beats of a job, kept in the beats table
// and mirrored into the job's script.json. The table and the files are
// maps from job id.
module BeatsEditor {
  import opened Wrappers
  import opened Models
  import opened Jobs

  /** The keys of script.json that the editor reads or writes; a missing key is None. */
  datatype ScriptFile = ScriptFile(
    beats: Option<seq<ScriptBeat>>,
    fullVoiceoverText: Option<string>,
    hook: Option<string>,
    title: Option<string>)

  /** script.json on disk: parsable, or present but not valid JSON. */
  datatype FileContent = Parsed(script: ScriptFile) | Corrupt

  /** A row of the beats table. */
  datatype BeatsRow = BeatsRow(beats: seq<ScriptBeat>, voiceoverText: string)

  /** What get_beats returns: the beats, the voiceover, the hook and the title. */
  datatype BeatsView = BeatsView(beats: seq<ScriptBeat>, voiceover: string, hook: Option<string>, title: Option<string>)

  /** _voiceover_from_beats */
  function VoiceoverFromBeats(beats: seq<ScriptBeat>): string
  {
    JoinedVoiceover(beats)
  }

  /** `a or b` on strings. */
  function OrElse(a: string, b: string): string
  {
    if a != "" then a else b
  }

  class BeatsStore {
    /** The beats table. */
    var rows: map<JobId, BeatsRow>
    /** outputs/<job>/script.json, when it exists. */
    var files: map<JobId, FileContent>
    /** The job directories that exist. */
    var dirs: set<JobId>

    constructor ()
      ensures rows == map[] && files == map[] && dirs == {}
    {
      rows := map[];
      files := map[];
      dirs := {};
    }

    /**
     * get_beats: a table row wins (its voiceover, or the joined beat texts
     * when that is empty; hook and title from a readable script.json);
     * without a row, script.json is read, and a missing file gives nothing.
     * An unreadable script.json without a row raises.
     */
    function GetBeats(job: JobId): (r: Result<BeatsView>)
      reads this
      ensures job in rows ==> r.Ok? && r.value.beats == rows[job].beats
      ensures job !in rows && job !in files ==> r == Ok(BeatsView([], "", None, None))
      ensures r.Err? <==> job !in rows && job in files && files[job].Corrupt?
    {
      if job in rows then
        var row := rows[job];
        var voiceover := OrElse(row.voiceoverText, VoiceoverFromBeats(row.beats));
        if job in files && files[job].Parsed? then
          Ok(BeatsView(row.beats, voiceover, files[job].script.hook, files[job].script.title))
        else
          Ok(BeatsView(row.beats, voiceover, None, None))
      else if job !in files then
        Ok(BeatsView([], "", None, None))
      else if files[job].Corrupt? then
        Err(ValueError("script.json is not valid JSON"))
      else
        var script := files[job].script;
        var beats := script.beats.GetOr([]);
        var voiceover := OrElse(script.fullVoiceoverText.GetOr(""), VoiceoverFromBeats(beats));
        Ok(BeatsView(beats, voiceover, script.hook, script.title))
    }

    /**
     * update_beats: the voiceover is recomputed from the beats; script.json
     * (or an empty one when it is missing or unreadable) gets the beats and
     * voiceover, and the hook and title only when they are given, and is
     * written only when the job directory exists; the table row is replaced.
     * Reading the job back gives the new beats and voiceover.
     */
    method UpdateBeats(job: JobId, beats: seq<ScriptBeat>, hook: Option<string>, title: Option<string>)
      returns (voiceover: string)
      modifies this
      ensures voiceover == VoiceoverFromBeats(beats)
      ensures rows == old(rows)[job := BeatsRow(beats, voiceover)]
      ensures dirs == old(dirs)
      ensures job !in dirs ==> files == old(files)
      ensures job in dirs ==> job in files && files[job].Parsed?
      ensures job in dirs ==>
        var before := if job in old(files) && old(files)[job].Parsed? then old(files)[job].script
                      else ScriptFile(None, None, None, None);
        files == old(files)[job := Parsed(ScriptFile(
          Some(beats), Some(voiceover),
          if hook.Some? then hook else before.hook,
          if title.Some? then title else before.title))]
      ensures GetBeats(job).Ok? && GetBeats(job).value.beats == beats
      ensures voiceover != "" ==> GetBeats(job).value.voiceover == voiceover
      ensures job in dirs && hook.Some? ==> GetBeats(job).value.hook == hook
      ensures job in dirs && title.Some? ==> GetBeats(job).value.title == title
    {
      voiceover := VoiceoverFromBeats(beats);
      var script := if job in files && files[job].Parsed? then files[job].script else ScriptFile(None, None, None, None);
      script := script.(beats := Some(beats), fullVoiceoverText := Some(voiceover));
      if hook.Some? {
        script := script.(hook := hook);
      }
      if title.Some? {
        script := script.(title := title);
      }
      if job in dirs {
        files := files[job := Parsed(script)];
      }
      rows := rows[job := BeatsRow(beats, voiceover)];
    }
  }
}
