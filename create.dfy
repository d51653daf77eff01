/**
 * The tournament-creation workflow of `client/js/create.js`: the step-1 form
 * check, the default team list, the shuffle and the submission of the draft.
 */
module Create {
  import opened Wrappers
  import opened Strings
  import opened Records
  import opened Browser
  import opened Http
  import opened Shuffle
  import opened Api

  const FieldsIncompleteMessage := "Bitte alle Felder korrekt ausfüllen."
  const MoreGroupsMessage := "Es kann nicht mehr Gruppen als Teams geben."
  const CreatedMessage := "Turnier erfolgreich erstellt!"

  datatype AlertKind = ErrorAlert | SuccessAlert

  /** A notification passed to `showAlert`. */
  datatype Alert = Alert(message: string, kind: AlertKind)

  /** The raw values of the four step-1 form fields. */
  datatype Step1Input = Step1Input(name: string, teamCount: string, groupCount: string, playoffSpots: string)

  /** The parsed tournament parameters. */
  datatype Settings = Settings(name: string, teamCount: int, groupCount: int, playoffSpots: int)

  /** Why step 1 refuses to continue. */
  datatype Step1Error = FieldsIncomplete | MoreGroupsThanTeams | TooManyPlayoffSpots(max: int)

  /** The text `showAlert` shows for a step-1 refusal. */
  function Step1Message(e: Step1Error): (m: string)
    ensures |m| > 0
  {
    match e
    case FieldsIncomplete => FieldsIncompleteMessage
    case MoreGroupsThanTeams => MoreGroupsMessage
    case TooManyPlayoffSpots(max) => "Maximal " + IntToString(max) + " Playoff-Plätze pro Gruppe möglich."
  }

  /** Different refusals read differently: the alert tells which check failed, and which maximum. */
  lemma Step1MessagesDistinct(e1: Step1Error, e2: Step1Error)
    requires Step1Message(e1) == Step1Message(e2)
    ensures e1 == e2
  {
    var m := Step1Message(e1);
    if e1.TooManyPlayoffSpots? && e2.TooManyPlayoffSpots? {
      var suffix := " Playoff-Plätze pro Gruppe möglich.";
      var d1, d2 := IntToString(e1.max), IntToString(e2.max);
      assert m == "Maximal " + d1 + suffix == "Maximal " + d2 + suffix;
      assert |d1| == |d2|;
      assert d1 == m[8..8 + |d1|] == d2;
      IntToStringInjective(e1.max, e2.max);
    } else {
      assert m[0] == Step1Message(e2)[0];
    }
  }

  /** `Math.floor(a / b)` for a non-zero integer divisor (Dafny's `/` rounds differently for b < 0). */
  function FloorDiv(a: int, b: int): (q: int)
    requires b != 0
    ensures b > 0 ==> q * b <= a < q * b + b
    ensures b < 0 ==> q * b + b < a <= q * b
  {
    if b > 0 then a / b else (-a) / (-b)
  }

  /** A playoff limit: a number, or none at all (Infinity or NaN). */
  datatype Bound = Finite(n: int) | Unbounded

  /**
   * `teamsPerGroup`. With no groups, `teamCount / 0` is Infinity (or NaN for
   * 0 / 0) and no playoff count exceeds it.
   */
  function TeamsPerGroup(teamCount: int, groupCount: int): (r: Bound)
    ensures r.Unbounded? <==> groupCount == 0
    ensures groupCount > 0 ==> r.n * groupCount <= teamCount < r.n * groupCount + groupCount
    ensures groupCount < 0 ==> r.n * groupCount + groupCount < teamCount <= r.n * groupCount
  {
    if groupCount == 0 then Unbounded else Finite(FloorDiv(teamCount, groupCount))
  }

  /** The step-1 checks, in the order the form applies them. */
  function Validate(input: Step1Input): (r: Result<Settings, Step1Error>)
    ensures r.Success? ==> var v := r.value;
      && v.name == Trim(input.name) && v.name != ""
      && ParseInt(input.teamCount) == Some(v.teamCount)
      && ParseInt(input.groupCount) == Some(v.groupCount)
      && ParseInt(input.playoffSpots) == Some(v.playoffSpots)
      && v.groupCount <= v.teamCount
      && (v.groupCount != 0 ==> v.playoffSpots <= FloorDiv(v.teamCount, v.groupCount))
  {
    var name := Trim(input.name);
    var teams := ParseInt(input.teamCount);
    var groups := ParseInt(input.groupCount);
    var spots := ParseInt(input.playoffSpots);
    if name == "" || teams.None? || groups.None? || spots.None? then Failure(FieldsIncomplete)
    else if teams.value < groups.value then Failure(MoreGroupsThanTeams)
    else
      match TeamsPerGroup(teams.value, groups.value)
      case Finite(max) =>
        if spots.value > max then Failure(TooManyPlayoffSpots(max))
        else Success(Settings(name, teams.value, groups.value, spots.value))
      case Unbounded => Success(Settings(name, teams.value, groups.value, spots.value))
  }

  /** All four fields filled: a name that is not blank and three numbers. */
  predicate FieldsComplete(input: Step1Input) {
    && Trim(input.name) != ""
    && ParseInt(input.teamCount).Some?
    && ParseInt(input.groupCount).Some?
    && ParseInt(input.playoffSpots).Some?
  }

  /** The first check runs before all others: an incomplete form gets exactly that error. */
  lemma IncompleteFirst(input: Step1Input)
    ensures Validate(input) == Failure(FieldsIncomplete) <==> !FieldsComplete(input)
  {
  }

  /** On a complete form, more groups than teams is refused, before the playoff check. */
  lemma MoreGroupsSecond(input: Step1Input)
    requires FieldsComplete(input)
    ensures Validate(input) == Failure(MoreGroupsThanTeams) <==>
      ParseInt(input.teamCount).value < ParseInt(input.groupCount).value
  {
  }

  /** With at least one group and no more groups than teams, floor(teams / groups) is the exact bound. */
  lemma PlayoffBoundExact(input: Step1Input)
    requires FieldsComplete(input)
    requires var t, g := ParseInt(input.teamCount).value, ParseInt(input.groupCount).value; 1 <= g <= t
    ensures var t, g, p := ParseInt(input.teamCount).value, ParseInt(input.groupCount).value,
        ParseInt(input.playoffSpots).value;
      && (Validate(input).Success? <==> p <= t / g)
      && (Validate(input).Failure? ==> Validate(input).error == TooManyPlayoffSpots(t / g))
  {
  }

  /** With zero groups (and so no negative team count) every playoff count is accepted. */
  lemma NoGroupsNoPlayoffLimit(input: Step1Input)
    requires FieldsComplete(input)
    requires ParseInt(input.groupCount) == Some(0) && ParseInt(input.teamCount).value >= 0
    ensures Validate(input).Success?
  {
  }

  lemma ParseSingleDigit(s: string, d: nat)
    requires d < 10 && s == [DigitChar(d)]
    ensures ParseInt(s) == Some(d)
  {
    assert IntToString(d) == s;
    ParseIntToString(d);
  }

  /** Eight teams in two groups: four playoff places pass, five are refused naming four. */
  lemma EightTeamsTwoGroups()
    ensures Validate(Step1Input("Cup", "8", "2", "4")) == Success(Settings("Cup", 8, 2, 4))
    ensures Validate(Step1Input("Cup", "8", "2", "5")) == Failure(TooManyPlayoffSpots(4))
  {
    TrimOfTrimmed("Cup");
    ParseSingleDigit("8", 8);
    ParseSingleDigit("2", 2);
    ParseSingleDigit("4", 4);
    ParseSingleDigit("5", 5);
    assert TeamsPerGroup(8, 2) == Finite(4);
  }

  /** The draft members step 1 writes. */
  const SettingKeys: set<string> := {"name", "groupCount", "playoffSpots", "teamCount"}

  /** `{ ...draft, name, groupCount, playoffSpots, teamCount }`; spreading null gives nothing. */
  function MergeDraft(draft: Option<Object>, v: Settings): (d: Object)
    ensures d.Keys == draft.GetOr(map[]).Keys + SettingKeys
    ensures d["name"] == Str(v.name) && d["teamCount"] == Num(v.teamCount)
    ensures d["groupCount"] == Num(v.groupCount) && d["playoffSpots"] == Num(v.playoffSpots)
    ensures forall k :: k in draft.GetOr(map[]) && k !in SettingKeys ==> d[k] == draft.GetOr(map[])[k]
  {
    draft.GetOr(map[])["name" := Str(v.name)]["groupCount" := Num(v.groupCount)]
      ["playoffSpots" := Num(v.playoffSpots)]["teamCount" := Num(v.teamCount)]
  }

  /** The label and initial value of the k-th team field, counting from 1. */
  function DefaultTeamName(k: int): (name: string)
    ensures |name| > 5 && name[..5] == "Team "
    ensures !IsWhitespace(name[0]) && !IsWhitespace(name[|name| - 1])
  {
    "Team " + IntToString(k)
  }

  /** The default list for `count` teams: "Team 1" to "Team count", empty when count < 1. */
  function DefaultTeamNames(count: int): (names: seq<string>)
    ensures |names| == if count > 0 then count else 0
    ensures forall k :: 0 <= k < |names| ==> names[k] == DefaultTeamName(k + 1)
  {
    seq(if count > 0 then count else 0, k => DefaultTeamName(k + 1))
  }

  /** The loop that adds one team field per team. */
  method BuildTeamInputs(teamCount: int) returns (inputs: seq<string>)
    ensures inputs == DefaultTeamNames(teamCount)
  {
    inputs := [];
    var i := 0;
    while i < teamCount
      invariant 0 <= i <= (if teamCount > 0 then teamCount else 0)
      invariant |inputs| == i
      invariant forall k :: 0 <= k < i ==> inputs[k] == DefaultTeamName(k + 1)
    {
      inputs := inputs + [DefaultTeamName(i + 1)];
      i := i + 1;
    }
  }

  /** Default names are pairwise different. */
  lemma DefaultTeamNamesDistinct(j: int, k: int)
    requires DefaultTeamName(j) == DefaultTeamName(k)
    ensures j == k
  {
    assert DefaultTeamName(j)[5..] == IntToString(j);
    assert DefaultTeamName(k)[5..] == IntToString(k);
    IntToStringInjective(j, k);
  }

  /** `value.trim() || fallback`. */
  function Label(value: string, fallback: string): (l: string)
    ensures !Blank(value) ==> IsTrimOf(l, value)
    ensures Blank(value) ==> l == fallback
  {
    var t := Trim(value);
    if t != "" then t else fallback
  }

  /** A label is never blank when the fallback is not, and labelling again changes nothing. */
  lemma LabelStable(value: string, fallback: string)
    requires Trim(fallback) == fallback != ""
    ensures Label(value, fallback) != ""
    ensures Label(Label(value, fallback), fallback) == Label(value, fallback)
  {
    TrimIdempotent(value);
  }

  /** `fields.map((i) => i.value.trim() || fallback)`. */
  function Labels(fields: seq<string>, fallback: string): (r: seq<string>)
    ensures |r| == |fields|
    ensures forall k :: 0 <= k < |r| ==> r[k] == Label(fields[k], fallback)
  {
    seq(|fields|, k requires 0 <= k < |fields| => Label(fields[k], fallback))
  }

  /** Submitted names are never empty: blank fields become "Unbenannt". */
  lemma SubmittedNamesNonEmpty(fields: seq<string>)
    ensures forall k :: 0 <= k < |fields| ==> Labels(fields, "Unbenannt")[k] != ""
  {
    TrimOfTrimmed("Unbenannt");
    forall k | 0 <= k < |fields| ensures Labels(fields, "Unbenannt")[k] != "" {
      LabelStable(fields[k], "Unbenannt");
    }
  }

  /** Untouched default fields are submitted as they are. */
  lemma DefaultsSurviveLabels(count: int, fallback: string)
    ensures Labels(DefaultTeamNames(count), fallback) == DefaultTeamNames(count)
  {
    var names := DefaultTeamNames(count);
    forall k | 0 <= k < |names| ensures Label(names[k], fallback) == names[k] {
      var digits := NatToString(k + 1);
      assert names[k] == "Team " + digits;
      assert IsDigit(digits[|digits| - 1]);
      TrimOfTrimmed(names[k]);
    }
  }

  /** Team names ["", "Eagles", ""] are submitted as ["Unbenannt", "Eagles", "Unbenannt"]. */
  lemma BlankNamesScenario()
    ensures Labels(["", "Eagles", ""], "Unbenannt") == ["Unbenannt", "Eagles", "Unbenannt"]
  {
    TrimOfTrimmed("Eagles");
    assert Blank("") && Trim("") == "";
    assert Label("", "Unbenannt") == "Unbenannt";
    assert Label("Eagles", "Unbenannt") == "Eagles";
    var r := Labels(["", "Eagles", ""], "Unbenannt");
    assert |r| == 3;
    assert r[0] == "Unbenannt" && r[1] == "Eagles" && r[2] == "Unbenannt";
  }

  /** The draft members copied into the create request. */
  const PayloadKeys: set<string> := {"name", "groupCount", "playoffSpots"}

  /**
   * The create request body: name, group count and playoff places of the
   * draft (an absent one is left out, as `JSON.stringify` drops undefined),
   * and one `{ name }` per submitted name.
   */
  function Payload(draft: Object, names: seq<string>): (p: Object)
    ensures p.Keys == (draft.Keys * PayloadKeys) + {"teams"}
    ensures "teamCount" !in p && "teamNames" !in p
    ensures p["teams"] == Teams(names)
    ensures forall k :: k in p && k != "teams" ==> p[k] == draft[k]
  {
    (map k | k in draft.Keys * PayloadKeys :: draft[k])["teams" := Teams(names)]
  }

  /** `[...inputs].map((i) => i.value.trim() || fallback)` into a new array. */
  method ReadLabels(fields: array<string>, fallback: string) returns (names: array<string>)
    ensures fresh(names) && names[..] == Labels(fields[..], fallback)
  {
    ghost var target := Labels(fields[..], fallback);
    names := new string[fields.Length];
    for k := 0 to fields.Length
      invariant forall j :: 0 <= j < k ==> names[j] == target[j]
    {
      names[k] := Label(fields[k], fallback);
    }
    assert names[..] == target;
  }

  /** `inputs.forEach((input, idx) => (input.value = names[idx]))`. */
  method CopyInto(names: array<string>, fields: array<string>)
    requires names.Length == fields.Length && names != fields
    modifies fields
    ensures fields[..] == names[..]
  {
    for k := 0 to fields.Length
      invariant forall j :: 0 <= j < k ==> fields[j] == names[j]
    {
      fields[k] := names[k];
    }
  }

  /** The two form steps, over the page's `window` and the API module's state. */
  class CreateForm {
    const window: Window
    const api: TournamentCache
    /** The current values of the team-name fields, in page order. */
    var teamInputs: array<string>

    /** The form and the API module share one page. */
    predicate Wired() {
      api.window == window
    }

    /** Loading the module: a missing `window.tournamentData` becomes `{}`. */
    constructor (window: Window, api: TournamentCache)
      requires api.window == window
      modifies window
      ensures this.window == window && this.api == api && Wired()
      ensures window.tournamentData == Some(old(window.tournamentData).GetOr(map[]))
      ensures teamInputs.Length == 0
    {
      this.window := window;
      this.api := api;
      teamInputs := new string[0];
      new;
      if window.tournamentData.None? {
        window.tournamentData := Some(map[]);
      }
    }

    /**
     * `prepareTeamNameInput`: on a refusal show the reason and change
     * nothing; otherwise merge the settings into the draft and lay out the
     * default team fields.
     */
    method PrepareTeamNameInput(input: Step1Input) returns (alert: Option<Alert>)
      modifies this, window
      ensures match Validate(input)
        case Failure(e) =>
          && alert == Some(Alert(Step1Message(e), ErrorAlert))
          && unchanged(this, window)
        case Success(v) =>
          && alert == None
          && window.tournamentData == Some(MergeDraft(old(window.tournamentData), v))
          && fresh(teamInputs) && teamInputs[..] == DefaultTeamNames(v.teamCount)
    {
      match Validate(input) {
        case Failure(e) =>
          alert := Some(Alert(Step1Message(e), ErrorAlert));
        case Success(v) =>
          alert := None;
          window.tournamentData := Some(MergeDraft(window.tournamentData, v));
          var names := BuildTeamInputs(v.teamCount);
          teamInputs := new string[|names|](k requires 0 <= k < |names| => names[k]);
      }
    }

    /**
     * The shuffle button: read the fields (blank ones as "Team"), shuffle them
     * with the given random indices and write them back.
     */
    method ShuffleTeams(picks: seq<int>)
      requires ValidPicks(picks, teamInputs.Length)
      modifies teamInputs
      ensures teamInputs[..] == Shuffled(Labels(old(teamInputs[..]), "Team"), picks)
      ensures multiset(teamInputs[..]) == multiset(Labels(old(teamInputs[..]), "Team"))
    {
      var names := ReadLabels(teamInputs, "Team");
      ShuffleInPlace(names, picks);
      CopyInto(names, teamInputs);
    }

    /**
     * The submit button: store the submitted names in the draft, send the
     * create request and report the outcome. Without a draft the handler
     * stops with a TypeError before doing anything.
     */
    method SubmitTeamNames(reply: Reply<Tournament>)
      returns (alert: Option<Alert>, created: Option<Tournament>, sent: seq<Request>)
      requires Wired()
      modifies window, api`currentTournament, api.storage
      ensures old(window.tournamentData).None? ==>
        alert == None && created == None && sent == [] && unchanged(window, api, api.storage)
      ensures old(window.tournamentData).Some? ==>
        var names := Labels(old(teamInputs[..]), "Unbenannt");
        var draft := old(window.tournamentData).value["teamNames" := Names(names)];
        var token := old(Lookup(api.storage.items, TokenKey));
        var gatePassed := !TokenMissing(token) && LooksLikeJwt(token.value);
        && sent == (if gatePassed then [CreateRequest(token, Payload(draft, names))] else [])
        && (created.Some? <==> gatePassed && reply.Ok?)
        && (created.Some? ==>
              && created.value == reply.value
              && alert == Some(Alert(CreatedMessage, SuccessAlert))
              && api.currentTournament == created
              && window.tournamentData == Some(AsObject(created.value))
              && api.storage.items == old(api.storage.items)[CurrentIdKey := created.value.id])
        && (created.None? ==>
              && alert == Some(Alert(CreateFailedMessage, ErrorAlert))
              && window.tournamentData == Some(draft)
              && api.currentTournament == old(api.currentTournament)
              && api.storage.items == old(api.storage.items))
      ensures old(api.Consistent()) ==> api.Consistent()
    {
      var names := Labels(teamInputs[..], "Unbenannt");
      if window.tournamentData.None? {
        return None, None, [];
      }
      var draft := window.tournamentData.value["teamNames" := Names(names)];
      window.tournamentData := Some(draft);
      var result;
      result, sent := api.CreateTournament(Payload(draft, names), reply);
      if result.Success? {
        created := Some(result.value);
        alert := Some(Alert(CreatedMessage, SuccessAlert));
      } else {
        created := None;
        alert := Some(Alert(CreateFailedMessage, ErrorAlert));
      }
    }
  }
}
