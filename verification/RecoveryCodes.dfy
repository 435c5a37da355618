/** Multi-factor enrolment and its recovery codes, each good for one login. */
module RecoveryCodes {
  import opened Options
  import opened Text

  /** A stored code: the hash of its normalized form (taken to be that form), and whether it was used. */
  datatype Code = Code(value: string, used: bool)

  /** `RECOVERY_CODE_COUNT` */
  const ENROLLED: nat := 10

  // ---- Normalization ----

  predicate Ignored(c: char) { IsSpace(c) || c == '-' }

  /** `replace(/[\s-]/g, '').toLowerCase()` */
  function Normalize(code: string): string
  {
    if |code| == 0 then ""
    else
      var front := Normalize(code[..|code| - 1]);
      if Ignored(code[|code| - 1]) then front else front + [Lower(code[|code| - 1])]
  }

  /** What normalizing keeps, character by character: no white space, no hyphen, letters in lower case. */
  lemma NormalizeKeeps(a: string, c: char, b: string)
    ensures Normalize("") == ""
    ensures Normalize(a + [c] + b)
            == Normalize(a) + (if IsSpace(c) || c == '-' then "" else [Lower(c)]) + Normalize(b)
  {
    NormalizeConcat(a + [c], b);
    assert (a + [c])[..|a|] == a;
  }

  lemma {:induction false} NormalizeConcat(a: string, b: string)
    ensures Normalize(a + b) == Normalize(a) + Normalize(b)
  {
    if |b| == 0 {
      assert a + b == a;
    } else {
      var n := |b| - 1;
      NormalizeConcat(a, b[..n]);
      assert (a + b)[..|a + b| - 1] == a + b[..n];
    }
  }

  /** Two spellings of a code: in either letter case, with blanks and hyphens anywhere. */
  ghost predicate Spells(typed: string, code: string)
  {
    if |typed| > 0 && Ignored(typed[|typed| - 1]) then Spells(typed[..|typed| - 1], code)
    else if |code| > 0 && Ignored(code[|code| - 1]) then Spells(typed, code[..|code| - 1])
    else if |typed| == 0 || |code| == 0 then |typed| == |code|
    else Lower(typed[|typed| - 1]) == Lower(code[|code| - 1]) && Spells(typed[..|typed| - 1], code[..|code| - 1])
  }

  /** Codes are told apart exactly up to their spelling. */
  lemma {:induction false} SpellingIsNormalForm(typed: string, code: string)
    ensures Spells(typed, code) <==> Normalize(typed) == Normalize(code)
    decreases |typed| + |code|
  {
    if |typed| > 0 && Ignored(typed[|typed| - 1]) {
      SpellingIsNormalForm(typed[..|typed| - 1], code);
    } else if |code| > 0 && Ignored(code[|code| - 1]) {
      SpellingIsNormalForm(typed, code[..|code| - 1]);
    } else if |typed| > 0 && |code| > 0 {
      SpellingIsNormalForm(typed[..|typed| - 1], code[..|code| - 1]);
      var a, b := Normalize(typed[..|typed| - 1]), Normalize(code[..|code| - 1]);
      assert (a + [Lower(typed[|typed| - 1])])[..|a|] == a && (b + [Lower(code[|code| - 1])])[..|b|] == b;
    }
  }

  // ---- One user's enrolment, requests interleaved ----

  /**
   * `codes` by row id; ids are never reused, `nextId` is the next one. `pending`: uses that found an
   * unused row. `burned`: successful uses since the last enrolment. `uses`: all of them, by row.
   */
  datatype State = State(
    enabled: bool, codes: map<nat, Code>, nextId: nat, pending: seq<Option<nat>>, burned: nat, uses: multiset<nat>)

  datatype Event =
    | Enable(values: seq<string>)
    | Disable
    | Find(id: nat, typed: string)
    | Burn(p: nat)

  /** The rows that `createMany` adds. */
  function Fresh(values: seq<string>, from: nat): (codes: map<nat, Code>)
    ensures forall id :: id in codes <==> from <= id < from + |values|
    ensures forall id :: id in codes ==> codes[id] == Code(Normalize(values[id - from]), false)
  {
    if |values| == 0 then map[]
    else
      var n := |values| - 1;
      Fresh(values[..n], from)[from + n := Code(Normalize(values[n]), false)]
  }

  predicate Burns(s: State, p: nat)
  {
    p < |s.pending| && s.pending[p].Some? && s.pending[p].value in s.codes && !s.codes[s.pending[p].value].used
  }

  function Next(s: State, v: Event): State
  {
    match v
    case Enable(values) =>
      if |values| != ENROLLED then s
      else s.(enabled := true, codes := Fresh(values, s.nextId), nextId := s.nextId + |values|, burned := 0)
    case Disable => s.(enabled := false, codes := map[], burned := 0)
    case Find(id, typed) =>
      if id in s.codes && !s.codes[id].used && s.codes[id].value == Normalize(typed) && Normalize(typed) != ""
      then s.(pending := s.pending + [Some(id)])
      else s
    case Burn(p) =>
      if Burns(s, p) then
        var id := s.pending[p].value;
        s.(codes := s.codes[id := s.codes[id].(used := true)], pending := s.pending[p := None],
           burned := s.burned + 1, uses := s.uses + multiset{id})
      else if p < |s.pending| then s.(pending := s.pending[p := None])
      else s
  }

  function Run(s: State, events: seq<Event>): State
  {
    if |events| == 0 then s else Next(Run(s, events[..|events| - 1]), events[|events| - 1])
  }

  function Unused(codes: map<nat, Code>): set<nat> { set id | id in codes && !codes[id].used }

  const INITIAL := State(false, map[], 0, [], 0, multiset{})

  ghost predicate Ok(s: State)
  {
    && (forall id :: id in s.codes ==> id < s.nextId)
    && (forall id :: s.uses[id] <= 1)
    && (forall id :: (id in s.codes && !s.codes[id].used) || id >= s.nextId ==> s.uses[id] == 0)
    && |Unused(s.codes)| + s.burned == (if s.enabled then ENROLLED else 0)
  }

  lemma {:induction false} FreshCount(values: seq<string>, from: nat)
    ensures |Unused(Fresh(values, from))| == |values|
  {
    if |values| == 0 {
      assert Unused(Fresh(values, from)) == {};
    } else {
      var front := values[..|values| - 1];
      FreshCount(front, from);
      assert Unused(Fresh(values, from)) == Unused(Fresh(front, from)) + {from + |front|};
    }
  }

  lemma StepOk(s: State, v: Event)
    requires Ok(s)
    ensures Ok(Next(s, v))
  {
    match v
    case Enable(values) => FreshCount(values, s.nextId);
    case Burn(p) =>
      if Burns(s, p) {
        var id := s.pending[p].value;
        assert Unused(Next(s, v).codes) == Unused(s.codes) - {id};
      }
    case _ =>
  }

  /**
   * In every interleaving each code is used at most once, and the unused ones are ten less the uses since
   * enrolment.
   */
  lemma {:induction false} CodesAddUp(events: seq<Event>, id: nat)
    ensures var s := Run(INITIAL, events);
            && s.uses[id] <= 1
            && |Unused(s.codes)| == (if s.enabled then 10 - s.burned else 0)
            && Ok(s)
  {
    if |events| != 0 {
      CodesAddUp(events[..|events| - 1], id);
      StepOk(Run(INITIAL, events[..|events| - 1]), events[|events| - 1]);
    }
  }

  /** The interleaved requests do to the rows what the service's methods do. */
  lemma RequestSteps(s: State, values: seq<string>, id: nat, typed: string, p: nat)
    ensures |values| == 10 ==>
              Next(s, Enable(values)).codes == Fresh(values, s.nextId) && Next(s, Enable(values)).enabled
    ensures Next(s, Disable).codes == map[] && !Next(s, Disable).enabled
    ensures id in s.codes && !s.codes[id].used && s.codes[id].value == Normalize(typed) != "" ==>
              Next(s, Find(id, typed)).pending == s.pending + [Some(id)]
    ensures p < |s.pending| && s.pending[p] == Some(id) ==>
              var n := Next(s, Burn(p));
              && n.pending == s.pending[p := None]
              && if id in s.codes && !s.codes[id].used
                 then n.codes == s.codes[id := s.codes[id].(used := true)] && n.uses[id] == s.uses[id] + 1
                 else n.codes == s.codes && n.uses == s.uses
  {
  }

  // ---- The service ----

  /** What other requests may do to the rows meanwhile: use them or replace them all. */
  ghost predicate Advances(codes: map<nat, Code>, codes': map<nat, Code>)
  {
    forall id :: id in codes && id in codes' ==> codes'[id] == codes[id] || codes'[id] == codes[id].(used := true)
  }

  predicate Matches(codes: map<nat, Code>, id: nat, typed: string)
  {
    id in codes && !codes[id].used && codes[id].value == Normalize(typed)
  }

  class MfaService {
    var enabled: bool
    var codes: map<nat, Code>
    var nextId: nat

    /** Row ids are never reused. */
    ghost predicate Valid()
      reads this
    {
      forall id :: id in codes ==> id < nextId
    }

    constructor ()
      ensures Valid() && !enabled && codes == map[]
    {
      enabled, codes, nextId := false, map[], 0;
    }

    /** Other requests run while this one awaits. */
    method Await(ghost quiet: bool)
      requires Valid()
      modifies this
      ensures Valid() && nextId >= old(nextId) && Advances(old(codes), codes)
      ensures quiet ==> codes == old(codes) && enabled == old(enabled) && nextId == old(nextId)
    {
    }

    /**
     * `enable`, its code verified. Only the read looks at whether enrolment is open: whatever codes the
     * transaction finds, it leaves ten new ones, the first of them row `from`.
     */
    method Enable(values: seq<string>, ghost quiet: bool) returns (ok: bool, ghost from: nat)
      requires Valid() && |values| == ENROLLED
      modifies this
      ensures Valid() && nextId >= old(nextId) && Advances(old(codes), codes)
      ensures ok == !old(enabled)
      ensures ok ==>
                && enabled && from >= old(nextId) && nextId == from + ENROLLED
                && codes == Fresh(values, from) && |Unused(codes)| == 10
      ensures ok && quiet ==> from == old(nextId)
      ensures !ok ==> enabled == old(enabled) && codes == old(codes) && nextId == old(nextId)
    {
      from := nextId;
      if enabled {
        ok := false;
        return;
      }
      Await(quiet);
      from := nextId;
      FreshCount(values, nextId);
      enabled := true;
      codes := Fresh(values, nextId);
      nextId := nextId + |values|;
      ok := true;
    }

    /**
     * A valid authenticator code burns nothing. Otherwise an unused code of that spelling is looked up, and
     * it is burned, and the login let in, exactly if it is still there and unused when the guarded update
     * runs; `at` is what that update finds.
     */
    method VerifySecondFactor(totpAccepts: bool, typed: string, ghost quiet: bool)
      returns (ok: bool, ghost found: Option<nat>, ghost at: map<nat, Code>)
      requires Valid()
      modifies this
      ensures Valid() && nextId >= old(nextId) && Advances(old(codes), codes)
      ensures Advances(old(codes), at) && (quiet ==> at == old(codes))
      ensures totpAccepts ==> ok && found.None? && codes == at == old(codes)
      ensures !totpAccepts && Normalize(typed) == "" ==> !ok && found.None?
      ensures !totpAccepts && Normalize(typed) != "" ==>
                (found.Some? <==> exists id :: id in old(codes) && !old(codes)[id].used
                                               && old(codes)[id].value == Normalize(typed))
      ensures !totpAccepts && found.None? ==> !ok && codes == at == old(codes)
      ensures found.Some? ==>
                var id := found.value;
                && id in old(codes) && !old(codes)[id].used && old(codes)[id].value == Normalize(typed)
                && ok == (id in at && !at[id].used)
                && codes == (if ok then at[id := at[id].(used := true)] else at)
                && (ok ==> |Unused(codes)| == |Unused(at)| - 1)
    {
      found, at := None, codes;
      if totpAccepts {
        ok := true;
        return;
      }
      ok := false;
      if Normalize(typed) == "" {
        return;
      }
      var matching := set id | id in codes && Matches(codes, id, typed);
      if matching == {} {
        forall id | id in codes ensures !(!codes[id].used && codes[id].value == Normalize(typed)) {
          assert id !in matching;
        }
        return;
      }
      var id :| id in matching;
      assert id in codes && !codes[id].used && codes[id].value == Normalize(typed);
      found := Some(id);
      Await(quiet);
      at := codes;
      if id !in codes || codes[id].used {
        return;
      }
      codes := codes[id := codes[id].(used := true)];
      assert Unused(codes) == Unused(at) - {id};
      ok := true;
    }
  }
}
