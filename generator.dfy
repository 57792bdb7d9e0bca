/**
 * `generate_batch_descriptions` of services.py: the numbered song list of the
 * prompt, the removal of code-fence markers from the model's answer, and the
 * rule that every failure yields an empty list. The model call and
 * `json.loads` are foreign: the model's answer is a parameter (None when the
 * call raised), and parsing is a function parameter (None when it raised).
 */
module Generator {
  import opened Wrappers
  import opened Text
  import opened Documents

  /** One parsed object of the model's JSON array; only its `vibe` member is read. */
  type VibeResult = map<string, string>

  /** `json.loads` restricted to what the pipeline can use: a list of objects, or None when it raises. */
  type Parser = string -> Option<seq<VibeResult>>

  /** `f"{i+1}. {s['name']} by {s['artist']}"` for the song at index `k` of the batch. */
  function SongLine(k: nat, s: TrackInfo): string {
    NatToString(k + 1) + ". " + Show(s.name) + " by " + Show(s.artist)
  }

  function SongLines(batch: seq<TrackInfo>): seq<string> {
    seq(|batch|, k requires 0 <= k < |batch| => SongLine(k, batch[k]))
  }

  /** The song list of the prompt: the numbered lines joined with newlines. */
  function SongsText(batch: seq<TrackInfo>): string {
    Join("\n", SongLines(batch))
  }

  const PromptHead: string :=
    "\n    I have a list of songs. For each song, provide a short, vivid, 1-sentence description"
    + " of the vibe/setting (e.g., \"upbeat city drive\" or \"rainy coffee shop\").\n    \n"
    + "    RETURN ONLY RAW JSON. Do not use Markdown blocks.\n"
    + "    The format must be a list of objects, strictly in the same order as the input:\n"
    + "    [\n        {\"title\": \"Song Title\", \"vibe\": \"Description here\"},\n        ...\n    ]\n\n"
    + "    Songs to process:\n    "

  const PromptTail: string := "\n    "

  /** The prompt sent for one batch. */
  function Prompt(batch: seq<TrackInfo>): string {
    PromptHead + SongsText(batch) + PromptTail
  }

  predicate NoNewline(s: TrackInfo) {
    '\n' !in Show(s.name) && '\n' !in Show(s.artist)
  }

  /**
   * The song list has one line per song of the batch, in batch order, the
   * k-th reading "k. name by artist" with k counted from 1 (when no name or
   * artist itself holds a line break).
   */
  lemma PromptListsEverySong(batch: seq<TrackInfo>)
    requires |batch| > 0
    requires forall k :: 0 <= k < |batch| ==> NoNewline(batch[k])
    ensures |Split(SongsText(batch), '\n')| == |batch|
    ensures forall k :: 0 <= k < |batch| ==>
              Split(SongsText(batch), '\n')[k] == NatToString(k + 1) + ". " + Show(batch[k].name) + " by " + Show(batch[k].artist)
  {
    var lines := SongLines(batch);
    forall k | 0 <= k < |lines|
      ensures '\n' !in lines[k]
    {
      var digits := NatToString(k + 1);
      assert forall j :: 0 <= j < |digits| ==> digits[j] != '\n';
    }
    SplitJoin(lines, '\n');
  }

  /** A fence marker "```" starts at index `i` of `s`. */
  predicate FenceAt(s: string, i: int)
    requires 0 <= i <= |s| - 3
  {
    s[i] == '`' && s[i + 1] == '`' && s[i + 2] == '`'
  }

  /** No "```" anywhere in `s`. */
  predicate NoFence(s: string) {
    forall i :: 0 <= i <= |s| - 3 ==> !FenceAt(s, i)
  }

  predicate StartsWithJsonFence(s: string) {
    |s| >= 7 && s[..7] == "```json"
  }

  /**
   * `re.sub(r'```json|```', '', s)`: scanning left to right, an occurrence of
   * "```json" is removed, else an occurrence of "```", else one character is kept.
   */
  function RemoveFences(s: string): string {
    if StartsWithJsonFence(s) then RemoveFences(s[7..])
    else if |s| >= 3 && FenceAt(s, 0) then RemoveFences(s[3..])
    else if s == [] then []
    else [s[0]] + RemoveFences(s[1..])
  }

  /** A text that does not start with a backtick keeps its first character in front. */
  lemma RemoveFencesKeepsHead(s: string)
    requires s != [] && s[0] != '`'
    ensures RemoveFences(s) == [s[0]] + RemoveFences(s[1..])
  {
    if |s| >= 7 {
      assert s[..7][0] == s[0];
    }
  }

  /**
   * After a backtick that does not start a fence, the removal does not produce
   * two more backticks: the input has at most one more, and then a character
   * that is kept.
   */
  lemma TailAfterSingleTicks(s: string)
    requires s != [] && s[0] == '`' && !(|s| >= 3 && FenceAt(s, 0))
    ensures var tail := RemoveFences(s[1..]); |tail| < 2 || tail[0] != '`' || tail[1] != '`'
  {
    var tail := RemoveFences(s[1..]);
    if |s| == 1 {
      assert tail == [];
    } else if s[1] != '`' {
      RemoveFencesKeepsHead(s[1..]);
    } else {
      if |s| >= 8 {
        assert s[1..][..7][1] == s[2];
      }
      assert tail == [s[1]] + RemoveFences(s[2..]);
      if |s| > 2 {
        RemoveFencesKeepsHead(s[2..]);
      }
    }
  }

  /** After the removal no fence marker of either kind is left, not even one the removal joined up. */
  lemma {:induction false} RemoveFencesLeavesNoFence(s: string)
    ensures NoFence(RemoveFences(s))
    decreases |s|
  {
    if StartsWithJsonFence(s) {
      RemoveFencesLeavesNoFence(s[7..]);
    } else if |s| >= 3 && FenceAt(s, 0) {
      RemoveFencesLeavesNoFence(s[3..]);
    } else if s != [] {
      var tail := RemoveFences(s[1..]);
      RemoveFencesLeavesNoFence(s[1..]);
      var r := [s[0]] + tail;
      assert RemoveFences(s) == r;
      if s[0] == '`' {
        TailAfterSingleTicks(s);
      }
      forall i | 0 <= i <= |r| - 3
        ensures !FenceAt(r, i)
      {
        if i > 0 {
          assert !FenceAt(tail, i - 1);
          assert r[i] == tail[i - 1] && r[i + 1] == tail[i] && r[i + 2] == tail[i + 1];
        }
      }
    }
  }

  /** A text without fence markers is left unchanged, so the removal is idempotent. */
  lemma {:induction false} RemoveFencesKeepsClean(s: string)
    requires NoFence(s)
    ensures RemoveFences(s) == s
    decreases |s|
  {
    if s != [] {
      if |s| >= 3 {
        assert !FenceAt(s, 0);
      }
      if |s| >= 7 {
        assert s[..7][0] == s[0] && s[..7][1] == s[1] && s[..7][2] == s[2];
      }
      assert NoFence(s[1..]) by {
        forall i | 0 <= i <= |s[1..]| - 3
          ensures !FenceAt(s[1..], i)
        {
          assert !FenceAt(s, i + 1);
        }
      }
      RemoveFencesKeepsClean(s[1..]);
    }
  }

  /** Stripping whitespace cannot create a fence marker. */
  lemma StripKeepsNoFence(s: string)
    requires NoFence(s)
    ensures NoFence(Strip(s))
  {
    var r := Strip(s);
    StripIsInfix(s);
    var i := LeadingSpace(s);
    forall j | 0 <= j <= |r| - 3
      ensures !FenceAt(r, j)
    {
      assert !FenceAt(s, i + j);
    }
  }

  /** The text handed to `json.loads`: fences removed, then surrounding whitespace stripped. */
  function Clean(text: string): (r: string)
    ensures NoFence(r)
    ensures Trimmed(r)
  {
    RemoveFencesLeavesNoFence(text);
    StripKeepsNoFence(RemoveFences(text));
    Strip(RemoveFences(text))
  }

  /** Cleaning an already cleaned text changes nothing. */
  lemma CleanIdempotent(text: string)
    ensures Clean(Clean(text)) == Clean(text)
  {
    var r := Clean(text);
    RemoveFencesKeepsClean(r);
    StripKeepsTrimmed(r);
  }

  /**
   * `generate_batch_descriptions`, given the model's answer (None when the call
   * or reading its text raised). A non-empty result is exactly the list parsed
   * from the cleaned answer; a failed call or a failed parse gives [].
   */
  function Descriptions(reply: Option<string>, parse: Parser): (results: seq<VibeResult>)
    ensures reply.None? ==> results == []
    ensures results != [] ==> reply.Some? && parse(Clean(reply.value)) == Some(results)
  {
    match reply
    case None => []
    case Some(text) =>
      match parse(Clean(text))
      case None => []
      case Some(results) => results
  }
}
