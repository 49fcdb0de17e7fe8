/** The invite-code administration script: random codes over upper-case
    letters and digits, adding one typed code, and generating a batch of
    prefixed random codes. Each operation works on the invite-code table of
    an `Accounts.Database`. Random draws and typed input are parameters. */
module CodeAdmin {
  import opened Basics
  import opened Text
  import opened Accounts

  const CodeAlphabet := "ABCDEFGHIJKLMNOPQRSTUVWXYZ0123456789"

  /** Length of the random part of a batch-generated code. */
  const SuffixLength := 6

  predicate IsCode(s: string, length: nat) {
    |s| == length && forall i :: 0 <= i < |s| ==> s[i] in CodeAlphabet
  }

  /** `length` characters, each an independent choice from the alphabet;
      eight when the caller gives no length. */
  method GenerateRandomCode(length: nat := 8) returns (code: string)
    ensures IsCode(code, length)
  {
    code := "";
    while |code| < length
      invariant |code| <= length
      invariant forall i :: 0 <= i < |code| ==> code[i] in CodeAlphabet
    {
      var k :| 0 <= k < |CodeAlphabet|;
      code := code + [CodeAlphabet[k]];
    }
  }

  datatype AddOutcome = Blank | AlreadyExists(code: string) | Added(code: string)

  /** Adding a typed code: the input is stripped; a blank one is ignored, an
      existing one is reported and left alone, and a new one is added unused. */
  method AddCustomCode(db: Database, typed: string) returns (outcome: AddOutcome)
    modifies db
    ensures db.users == old(db.users)
    ensures var code := Trim(typed, PySpace);
      if code == [] then outcome == Blank && db.codes == old(db.codes)
      else if code in old(db.codes) then outcome == AlreadyExists(code) && db.codes == old(db.codes)
      else outcome == Added(code) && db.codes == old(db.codes)[code := false]
  {
    var code := Trim(typed, PySpace);
    if code == [] {
      return Blank;
    }
    if code in db.codes {
      return AlreadyExists(code);
    }
    db.codes := db.codes[code := false];
    outcome := Added(code);
  }

  /** A batch code: the prefix followed by a random suffix. */
  predicate IsBatchCode(c: string, prefix: string) {
    |c| == |prefix| + SuffixLength && c[..|prefix|] == prefix && IsCode(c[|prefix|..], SuffixLength)
  }

  /** The codes the draws offer, in draw order: prefix + d for each draw d
      whose code is not in `codes`. */
  function FreshCodes(prefix: string, draws: seq<string>, codes: map<string, bool>): seq<string> {
    if draws == [] then []
    else
      var last := prefix + draws[|draws| - 1];
      FreshCodes(prefix, draws[..|draws| - 1], codes) + (if last !in codes then [last] else [])
  }

  /** The fresh codes of the first k draws are a prefix of those of all draws. */
  lemma {:induction false} FreshCodesOfPrefix(prefix: string, draws: seq<string>, codes: map<string, bool>, k: nat)
    requires k <= |draws|
    ensures var head := FreshCodes(prefix, draws[..k], codes);
      |head| <= |FreshCodes(prefix, draws, codes)| && FreshCodes(prefix, draws, codes)[..|head|] == head
  {
    if k < |draws| {
      var init := draws[..|draws| - 1];
      assert init[..k] == draws[..k];
      FreshCodesOfPrefix(prefix, init, codes, k);
    } else {
      assert draws[..k] == draws;
    }
  }

  datatype BatchOutcome =
    | InvalidCount
    | OutOfDraws
    | DuplicateInBatch(codes: seq<string>)
    | Generated(codes: seq<string>)

  /** Batch generation. `count` is the typed count parsed as an integer
      (`None` when it does not parse), `draws` the random suffixes in the
      order they would be drawn. For each code, suffixes are drawn until
      prefix + suffix is absent from the committed table; codes added
      earlier in the same batch are not visible to that check. The batch is
      committed at the end, all or nothing: a code repeated within the
      batch violates the primary key and nothing is written. When the draws
      run out the batch stops without writing anything; that happens
      exactly when fewer than `count` draws offer a code not yet committed,
      and otherwise the batch's codes are the first ones offered. */
  method BatchGenerate(db: Database, count: Option<int>, typedPrefix: string, draws: seq<string>)
    returns (outcome: BatchOutcome)
    requires forall i :: 0 <= i < |draws| ==> IsCode(draws[i], SuffixLength)
    modifies db
    ensures db.users == old(db.users)
    ensures outcome.InvalidCount? <==> count.None?
    ensures outcome.OutOfDraws? <==>
      count.Some? && |FreshCodes(Trim(typedPrefix, PySpace), draws, old(db.codes))| < count.value
    ensures outcome.Generated? || outcome.DuplicateInBatch? ==>
      (var offered := FreshCodes(Trim(typedPrefix, PySpace), draws, old(db.codes));
       |outcome.codes| <= |offered| && outcome.codes == offered[..|outcome.codes|])
    ensures !outcome.Generated? ==> db.codes == old(db.codes)
    ensures outcome.Generated? || outcome.DuplicateInBatch? ==>
      && count.Some?
      && |outcome.codes| == (if count.value < 0 then 0 else count.value)
      && forall i :: 0 <= i < |outcome.codes| ==>
           IsBatchCode(outcome.codes[i], Trim(typedPrefix, PySpace)) && outcome.codes[i] !in old(db.codes)
    ensures outcome.DuplicateInBatch? ==> !Distinct(outcome.codes)
    ensures outcome.Generated? ==>
      && Distinct(outcome.codes)
      && db.codes == old(db.codes) + map c | c in outcome.codes :: false
  {
    if count.None? {
      return InvalidCount;
    }
    var prefix := Trim(typedPrefix, PySpace);
    var codes := db.codes;
    var generated: seq<string> := [];
    var next := 0;
    var n := 0;
    while n < count.value
      invariant 0 <= next <= |draws|
      invariant |generated| == n
      invariant count.value >= 0 ==> n <= count.value
      invariant count.value < 0 ==> n == 0
      invariant forall i :: 0 <= i < |generated| ==> IsBatchCode(generated[i], prefix) && generated[i] !in codes
      invariant generated == FreshCodes(prefix, draws[..next], codes)
      invariant codes == db.codes == old(db.codes) && db.users == old(db.users)
    {
      var drawn := NextFresh(prefix, draws, codes, next);
      if drawn.None? {
        return OutOfDraws;
      }
      generated := generated + [drawn.value.0];
      next := drawn.value.1;
      n := n + 1;
    }
    FreshCodesOfPrefix(prefix, draws, codes, next);
    if !Distinct(generated) {
      return DuplicateInBatch(generated);
    }
    db.codes := db.codes + map c | c in generated :: false;
    outcome := Generated(generated);
  }

  /** The retry loop for one code: draws from index `start` on until
      prefix + draw is not in `codes`, returning that code and the index
      after its draw, or `None` when the draws run out. */
  method NextFresh(prefix: string, draws: seq<string>, codes: map<string, bool>, start: nat)
    returns (drawn: Option<(string, nat)>)
    requires start <= |draws|
    requires forall i :: 0 <= i < |draws| ==> IsCode(draws[i], SuffixLength)
    ensures drawn.None? ==> FreshCodes(prefix, draws, codes) == FreshCodes(prefix, draws[..start], codes)
    ensures drawn.Some? ==>
      && start < drawn.value.1 <= |draws|
      && IsBatchCode(drawn.value.0, prefix) && drawn.value.0 !in codes
      && FreshCodes(prefix, draws[..drawn.value.1], codes) == FreshCodes(prefix, draws[..start], codes) + [drawn.value.0]
  {
    var next := start;
    while next < |draws|
      invariant start <= next <= |draws|
      invariant FreshCodes(prefix, draws[..next], codes) == FreshCodes(prefix, draws[..start], codes)
    {
      var full := prefix + draws[next];
      assert draws[..next + 1][..next] == draws[..next];
      if full !in codes {
        assert full[..|prefix|] == prefix && full[|prefix|..] == draws[next];
        return Some((full, next + 1));
      }
      next := next + 1;
    }
    assert draws[..next] == draws;
    return None;
  }
}
