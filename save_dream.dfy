/**
 * The `saveDream` cloud function: it rejects empty content, asks the model
 * for a short poetic title (falling back to `无题梦境`, or to the first 8
 * characters of the content when the call fails), and adds the dream with
 * its sanitised title and mood and clarity defaults to the `dreams`
 * collection.
 *
 * The model call is the `ai` input, the collection a sequence the call
 * appends to, the new document id `newId`, the server time `now` and a
 * failing insert `dbError`. Missing arguments are `""` and clarity `0`.
 */
module SaveDream {
  import opened Wrappers
  import opened Text

  const Untitled := "无题梦境"
  const NoContent := "No content provided"
  const Unknown := "unknown"

  /** What the title request gives: no AI available, a reply, or a throw. */
  datatype AiOutcome = NoAi | Reply(text: string) | AiError

  datatype Record = Record(
    owner: string,
    content: string,
    analysis: string,
    summary: string,
    mood: string,
    clarity: int,
    createTime: int,
    updatedTime: int)

  /** `{ success: false, msg }`, `{ success: true, id, summary }` and
      `{ success: false, error }`. */
  datatype Response = Rejected(msg: string) | Saved(id: string, summary: string) | Failed(error: string)

  datatype Outcome = Outcome(response: Response, dreams: seq<Record>)

  /** The title: the default, replaced by a non-empty reply, or the first
      8 characters and `...` when the request throws. */
  function Summary(content: string, ai: AiOutcome): (s: string)
    ensures ai.NoAi? || ai == Reply("") ==> s == Untitled
    ensures ai.Reply? && ai.text != "" ==> s == ai.text
    ensures ai.AiError? ==> s == Take(content, 8) + "..." && |s| <= 11
    ensures s != ""
  {
    match ai
    case NoAi => Untitled
    case Reply(text) => if text != "" then text else Untitled
    case AiError => Take(content, 8) + "..."
  }

  predicate Banned(c: char) {
    c == '"' || c == '《' || c == '》'
  }

  /** `summary.replace(/["《》]/g, '')`. */
  function Sanitise(s: string): (r: string)
    ensures |r| <= |s|
  {
    if s == [] then [] else (if Banned(s[0]) then [] else [s[0]]) + Sanitise(s[1..])
  }

  lemma {:induction false} SanitiseConcat(a: string, b: string)
    ensures Sanitise(a + b) == Sanitise(a) + Sanitise(b)
  {
    if a == [] {
      assert a + b == b;
    } else {
      var h := if Banned(a[0]) then [] else [a[0]];
      assert (a + b)[0] == a[0] && (a + b)[1..] == a[1..] + b;
      SanitiseConcat(a[1..], b);
      calc {
        Sanitise(a + b);
        h + Sanitise(a[1..] + b);
        h + (Sanitise(a[1..]) + Sanitise(b));
        (h + Sanitise(a[1..])) + Sanitise(b);
      }
    }
  }

  /** Sanitising removes exactly the banned characters: none is left, text
      without them is unchanged, and so a second pass changes nothing. */
  lemma {:induction false} SanitiseFacts(s: string)
    ensures forall i :: 0 <= i < |Sanitise(s)| ==> !Banned(Sanitise(s)[i])
    ensures (forall i :: 0 <= i < |s| ==> !Banned(s[i])) ==> Sanitise(s) == s
    ensures Sanitise(Sanitise(s)) == Sanitise(s)
  {
    if s != [] {
      SanitiseFacts(s[1..]);
      var h := if Banned(s[0]) then [] else [s[0]];
      var t := Sanitise(s[1..]);
      assert Sanitise(s) == h + t;
      SanitiseConcat(h, t);
      if h != [] {
        assert Sanitise(h) == h by {
          assert h[1..] == [];
        }
      }
    }
  }

  /** `mood || 'unknown'`. */
  function MoodOr(mood: string): string {
    if mood != "" then mood else Unknown
  }

  /** `clarity || 3`: a falsy clarity, 0 included, becomes 3. */
  function ClarityOr(clarity: int): int {
    if clarity != 0 then clarity else 3
  }

  /** One call of the cloud function. */
  function Save(openid: string, content: string, analysis: string, mood: string, clarity: int,
                ai: AiOutcome, now: int, newId: string, dbError: Option<string>, dreams: seq<Record>): (r: Outcome)
    ensures content == "" ==> r == Outcome(Rejected(NoContent), dreams)
    ensures content != "" && dbError.Some? ==> r == Outcome(Failed(dbError.value), dreams)
    ensures content != "" && dbError.None? ==>
              r.response == Saved(newId, Summary(content, ai))
              && |r.dreams| == |dreams| + 1 && r.dreams[..|dreams|] == dreams
    ensures content != "" && dbError.None? ==>
              var d := r.dreams[|dreams|];
              d.owner == openid && d.content == content && d.analysis == analysis
              && d.summary == Sanitise(Summary(content, ai))
              && d.mood == MoodOr(mood) && d.mood != ""
              && d.clarity == ClarityOr(clarity) && d.clarity != 0
              && d.createTime == now && d.updatedTime == now
  {
    if content == "" then Outcome(Rejected(NoContent), dreams)
    else
      var summary := Summary(content, ai);
      match dbError
      case Some(e) => Outcome(Failed(e), dreams)
      case None =>
        var d := Record(openid, content, analysis, Sanitise(summary), MoodOr(mood), ClarityOr(clarity), now, now);
        Outcome(Saved(newId, summary), dreams + [d])
  }

  /** The reply carries the title as the model gave it while the stored
      one is sanitised: a title `《梦》` comes back whole and is stored as
      `梦`. */
  lemma ReturnedTitleUnsanitised(dreams: seq<Record>)
    ensures var r := Save("u", "我梦见了大海", "", "", 0, Reply("《梦》"), 0, "id", None, dreams);
            r.response.summary == "《梦》" && r.dreams[|dreams|].summary == "梦"
  {
    var s := "《梦》";
    assert s[1..] == "梦》" && s[1..][1..] == "》" && s[1..][1..][1..] == [];
  }
}
