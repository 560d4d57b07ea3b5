/**
 Page rendering with bounded retry, the report it leaves on disk, and the runtime view rebuilt from
 that report.

 The image provider is opaque: a function from page number, attempt number and the attempted item to
 what happened. Timestamps, image bytes and provider names are left out of the results.
 */
module PageRender {
  import opened Sequences

  datatype AssetRef = AssetRef(id: nat, role: string)

  datatype Item = Item(
    pageId: string, title: string, role: string, prompt: string, subtitle: string,
    sellingPoints: seq<string>, textDensity: string, copyStrategy: string,
    references: seq<AssetRef>, retryable: bool)

  datatype Strategy = OriginalPromptRetry | TextDensityReduction | ReferenceRebinding | PackagingEmphasis

  datatype Attempt = Attempt(strategy: Strategy, item: Item)

  // ---------------------------------------------------------------- the attempts of one page

  const FlexibleRoles: set<string> :=
    {"scene_value_story", "brand_trust", "gift_openbox_portable", "tea_soup_evidence"}

  const SceneRoles: set<string> := {"scene_ref", "bg_ref"}

  function WithoutScene(refs: seq<AssetRef>): seq<AssetRef> {
    if refs == [] then [] else
      (if refs[0].role in SceneRoles then [] else [refs[0]]) + WithoutScene(refs[1..])
  }

  function TextLight(item: Item): Item {
    item.(
      prompt := item.prompt + "\nretry: reduce text density",
      subtitle := "",
      sellingPoints := if |item.sellingPoints| > 1 then item.sellingPoints[..1] else item.sellingPoints,
      textDensity := if item.textDensity == "low" then "none" else "low",
      copyStrategy := "light")
  }

  function Rebound(item: Item): Item {
    var kept := WithoutScene(item.references);
    item.(
      references := if kept == [] then item.references else kept,
      prompt := item.prompt + "\nretry: weaken scene references")
  }

  function PackagingFirst(item: Item): Item {
    item.(prompt := item.prompt + "\nretry: protect the packaging")
  }

  /** `_build_attempt_items`: the original item and two retry variants. */
  function Attempts(item: Item): (r: seq<Attempt>)
    ensures |r| == 3
  {
    [Attempt(OriginalPromptRetry, item), Attempt(TextDensityReduction, TextLight(item)),
     if item.role in FlexibleRoles then Attempt(ReferenceRebinding, Rebound(item))
     else Attempt(PackagingEmphasis, PackagingFirst(item))]
  }

  ghost predicate Subsequence<T>(s: seq<T>, t: seq<T>) {
    if s == [] then true
    else if t == [] then false
    else (s[0] == t[0] && Subsequence(s[1..], t[1..])) || Subsequence(s, t[1..])
  }

  lemma {:induction false} WithoutSceneIsSubsequence(refs: seq<AssetRef>)
    ensures Subsequence(WithoutScene(refs), refs)
    ensures forall r :: r in WithoutScene(refs) <==> r in refs && r.role !in SceneRoles
  {
    if refs != [] {
      WithoutSceneIsSubsequence(refs[1..]);
      assert refs == [refs[0]] + refs[1..];
      var rest := WithoutScene(refs[1..]);
      if refs[0].role in SceneRoles {
        assert WithoutScene(refs) == rest;
      } else {
        assert WithoutScene(refs) == [refs[0]] + rest;
        assert ([refs[0]] + rest)[1..] == rest;
      }
    }
  }

  lemma {:induction false} SubsequenceOfItself<T>(s: seq<T>)
    ensures Subsequence(s, s)
  {
    if s != [] {
      SubsequenceOfItself(s[1..]);
    }
  }

  /** Every variant keeps the page and its role, and draws its references from the original ones: some
      whenever there were some, and scene and background references only if there were no others. */
  lemma VariantsKeepThePage(item: Item, k: nat)
    requires k < 3
    ensures var v := Attempts(item)[k].item;
      && v.pageId == item.pageId && v.role == item.role && v.title == item.title && v.retryable == item.retryable
      && Subsequence(v.references, item.references)
      && (item.references != [] ==> v.references != [])
      && (Attempts(item)[k].strategy == ReferenceRebinding ==>
            forall r :: r in v.references && r.role in SceneRoles ==> forall q :: q in item.references ==> q.role in SceneRoles)
  {
    SubsequenceOfItself(item.references);
    WithoutSceneIsSubsequence(item.references);
  }

  // ---------------------------------------------------------------- when to go on

  function LowerChar(c: char): char {
    if 'A' <= c <= 'Z' then c - 'A' + 'a' else c
  }

  function Lower(s: string): string {
    seq(|s|, i requires 0 <= i < |s| => LowerChar(s[i]))
  }

  /** Python's `part in s`. */
  predicate Contains(s: string, part: string) {
    part <= s || (s != [] && Contains(s[1..], part))
  }

  const TransientMarkers: seq<string> := [
    "bad_response_body", "unexpected end of json input", "response is not valid json", "500", "timed out"]

  predicate Transient(error: string) {
    exists m :: 0 <= m < |TransientMarkers| && Contains(Lower(error), TransientMarkers[m])
  }

  predicate ShouldContinue(error: string, item: Item) {
    item.retryable && (Transient(error) || item.role in FlexibleRoles)
  }

  // ---------------------------------------------------------------- one page

  datatype Happened =
    | Rendered(width: nat, height: nat)
    | ProviderError(message: string)                    // before the usage of the call was recorded
    | SaveError(message: string)                        // after it: copying or measuring the image failed

  type Provider = (nat, nat, Item) -> Happened

  datatype UsageRecord = UsageRecord(page: nat, attempt: nat, success: bool, strategy: Strategy)

  datatype PageStatus = PageCompleted | PageFailed

  datatype Result = Result(
    index: nat, pageId: string, title: string, role: string, status: PageStatus,
    relativePath: string, width: nat, height: nat, referenceRoles: seq<string>,
    errorMessage: string, retryCount: nat, strategies: seq<Strategy>)

  datatype PageRun = PageRun(result: Result, usage: seq<UsageRecord>, attempts: nat)

  function Roles(refs: seq<AssetRef>): seq<string> {
    seq(|refs|, i requires 0 <= i < |refs| => refs[i].role)
  }

  function Digits(n: nat): string {
    (if n < 10 then "" else Digits(n / 10)) + [('0' as int + n % 10) as char]
  }

  function TwoDigits(n: nat): string {
    if n < 10 then "0" + Digits(n) else Digits(n)
  }

  function FilePath(index: nat, pageId: string): string {
    "generated/" + TwoDigits(index) + "_" + pageId + ".png"
  }

  function CompletedResult(index: nat, item: Item, h: Happened, k: nat, strategies: seq<Strategy>): Result
    requires h.Rendered?
  {
    Result(index, item.pageId, item.title, item.role, PageCompleted, FilePath(index, item.pageId),
           h.width, h.height, Roles(item.references), "", k, strategies)
  }

  function FailedResult(index: nat, item: Item, error: string, strategies: seq<Strategy>): Result {
    Result(index, item.pageId, item.title, item.role, PageFailed, "", 0, 0, Roles(item.references),
           error, |strategies|, strategies)
  }

  function UsageOf(index: nat, k: nat, strategy: Strategy, h: Happened): seq<UsageRecord> {
    match h
    case Rendered(_, _) => [UsageRecord(index, k + 1, true, strategy)]
    case ProviderError(_) => [UsageRecord(index, k + 1, false, strategy)]
    case SaveError(_) => [UsageRecord(index, k + 1, true, strategy), UsageRecord(index, k + 1, false, strategy)]
  }

  function Applied(strategies: seq<Strategy>, s: Strategy): seq<Strategy> {
    if s == OriginalPromptRetry then strategies else strategies + [s]
  }

  /** The retry loop from attempt `k` (counted from zero) on. */
  function TryFrom(
    index: nat, item: Item, attempts: seq<Attempt>, p: Provider, k: nat, strategies: seq<Strategy>,
    usage: seq<UsageRecord>): PageRun
    requires k < |attempts|
    decreases |attempts| - k
  {
    var a := attempts[k];
    var h := p(index, k + 1, a.item);
    var recorded := usage + UsageOf(index, k, a.strategy, h);
    if h.Rendered? then PageRun(CompletedResult(index, a.item, h, k, strategies), recorded, k + 1)
    else
      var tried := Applied(strategies, a.strategy);
      if k + 1 >= |attempts| || !ShouldContinue(h.message, item) then
        PageRun(FailedResult(index, item, h.message, tried), recorded, k + 1)
      else TryFrom(index, item, attempts, p, k + 1, tried, recorded)
  }

  function RenderPage(index: nat, item: Item, p: Provider): PageRun {
    TryFrom(index, item, Attempts(item), p, 0, [], [])
  }

  /** What happened on attempt `k`. */
  function At(index: nat, attempts: seq<Attempt>, p: Provider, k: nat): Happened
    requires k < |attempts|
  {
    p(index, k + 1, attempts[k].item)
  }

  /** An attempt after which the loop goes on. */
  predicate GoesOn(index: nat, item: Item, attempts: seq<Attempt>, p: Provider, k: nat)
    requires k < |attempts|
  {
    k + 1 < |attempts| && !At(index, attempts, p, k).Rendered? && ShouldContinue(At(index, attempts, p, k).message, item)
  }

  /** The strategies tried before attempt `k`, the original prompt apart. */
  function StrategiesBefore(attempts: seq<Attempt>, k: nat): seq<Strategy>
    requires k <= |attempts|
  {
    if k == 0 then [] else Applied(StrategiesBefore(attempts, k - 1), attempts[k - 1].strategy)
  }

  function UsageBefore(index: nat, attempts: seq<Attempt>, p: Provider, k: nat): seq<UsageRecord>
    requires k <= |attempts|
  {
    if k == 0 then [] else
      UsageBefore(index, attempts, p, k - 1)
      + UsageOf(index, k - 1, attempts[k - 1].strategy, At(index, attempts, p, k - 1))
  }

  /** What a run that stopped after `n` attempts returns. */
  function ResultAfter(index: nat, item: Item, attempts: seq<Attempt>, p: Provider, n: nat): Result
    requires 0 < n <= |attempts|
  {
    var h := At(index, attempts, p, n - 1);
    if h.Rendered? then CompletedResult(index, attempts[n - 1].item, h, n - 1, StrategiesBefore(attempts, n - 1))
    else FailedResult(index, item, h.message, StrategiesBefore(attempts, n))
  }

  /** The retry loop from attempt `k` on, with what the attempts before it left. */
  function Resume(index: nat, item: Item, attempts: seq<Attempt>, p: Provider, k: nat): PageRun
    requires k < |attempts|
  {
    TryFrom(index, item, attempts, p, k, StrategiesBefore(attempts, k), UsageBefore(index, attempts, p, k))
  }

  lemma ResumeNext(index: nat, item: Item, attempts: seq<Attempt>, p: Provider, k: nat)
    requires k < |attempts|
    ensures Resume(index, item, attempts, p, k) ==
      if GoesOn(index, item, attempts, p, k) then Resume(index, item, attempts, p, k + 1)
      else PageRun(ResultAfter(index, item, attempts, p, k + 1), UsageBefore(index, attempts, p, k + 1), k + 1)
  {
  }

  /** The attempts made by a loop that has reached attempt `k`. */
  function AttemptsMade(index: nat, item: Item, attempts: seq<Attempt>, p: Provider, k: nat): (n: nat)
    requires k < |attempts|
    ensures k < n <= |attempts|
    ensures !GoesOn(index, item, attempts, p, n - 1)
    ensures forall j :: k <= j < n - 1 ==> GoesOn(index, item, attempts, p, j)
    decreases |attempts| - k
  {
    if GoesOn(index, item, attempts, p, k) then AttemptsMade(index, item, attempts, p, k + 1) else k + 1
  }

  lemma {:induction false} ResumeMeaning(index: nat, item: Item, attempts: seq<Attempt>, p: Provider, k: nat)
    requires k < |attempts|
    ensures var n := AttemptsMade(index, item, attempts, p, k);
      Resume(index, item, attempts, p, k)
      == PageRun(ResultAfter(index, item, attempts, p, n), UsageBefore(index, attempts, p, n), n)
    decreases |attempts| - k
  {
    ResumeNext(index, item, attempts, p, k);
    if GoesOn(index, item, attempts, p, k) {
      ResumeMeaning(index, item, attempts, p, k + 1);
    }
  }

  /** What `RenderPage` returns, by the attempts it made. */
  lemma RunMeaning(index: nat, item: Item, p: Provider)
    ensures var run, attempts := RenderPage(index, item, p), Attempts(item);
      && 1 <= run.attempts <= 3
      && (forall j :: 0 <= j < run.attempts - 1 ==> GoesOn(index, item, attempts, p, j))
      && !GoesOn(index, item, attempts, p, run.attempts - 1)
      && run.usage == UsageBefore(index, attempts, p, run.attempts)
      && run.result == ResultAfter(index, item, attempts, p, run.attempts)
  {
    ResumeMeaning(index, item, Attempts(item), p, 0);
    assert RenderPage(index, item, p) == Resume(index, item, Attempts(item), p, 0);
  }

  lemma StrategyCount(item: Item, k: nat)
    requires k <= 3
    ensures |StrategiesBefore(Attempts(item), k)| == if k == 0 then 0 else k - 1
  {
    var attempts := Attempts(item);
    assert attempts[0].strategy == OriginalPromptRetry;
    assert attempts[1].strategy != OriginalPromptRetry && attempts[2].strategy != OriginalPromptRetry;
    assert StrategiesBefore(attempts, 1) == StrategiesBefore(attempts, 0) == [];
    assert StrategiesBefore(attempts, 2) == [attempts[1].strategy];
    if k == 3 {
      assert StrategiesBefore(attempts, 3) == [attempts[1].strategy] + [attempts[2].strategy];
    }
  }

  /** A page makes one to three attempts, stopping at the first that renders or after which no retry is
      due; it is completed exactly when its last attempt rendered, and in both outcomes `retryCount` is
      the attempts minus one. */
  lemma PageOutcome(index: nat, item: Item, p: Provider)
    ensures var run, attempts := RenderPage(index, item, p), Attempts(item);
      && 1 <= run.attempts <= 3
      && (forall j :: 0 <= j < run.attempts - 1 ==> GoesOn(index, item, attempts, p, j))
      && !GoesOn(index, item, attempts, p, run.attempts - 1)
      && (run.result.status == PageCompleted <==> At(index, attempts, p, run.attempts - 1).Rendered?)
      && (run.result.status == PageFailed ==> run.result.errorMessage == At(index, attempts, p, run.attempts - 1).message)
      && run.result.retryCount == run.attempts - 1
      && run.result.index == index && run.result.pageId == item.pageId && run.result.role == item.role
      && (run.result.status == PageCompleted ==> run.result.relativePath != "")
  {
    RunMeaning(index, item, p);
    var run := RenderPage(index, item, p);
    StrategyCount(item, run.attempts);
    VariantsKeepThePage(item, run.attempts - 1);
  }

  /** Attempt `n`, counted from zero, is reached and renders. */
  ghost predicate RendersAt(index: nat, item: Item, p: Provider, n: nat)
    requires n < 3
  {
    At(index, Attempts(item), p, n).Rendered? && forall j :: 0 <= j < n ==> GoesOn(index, item, Attempts(item), p, j)
  }

  /** A page is completed exactly when some attempt is reached and renders, and that is its last. */
  lemma CompletedIffRendersAt(index: nat, item: Item, p: Provider, n: nat)
    requires n < 3
    ensures var run := RenderPage(index, item, p);
      RendersAt(index, item, p, n) <==> run.result.status == PageCompleted && run.attempts == n + 1
  {
    PageOutcome(index, item, p);
    var run := RenderPage(index, item, p);
    if RendersAt(index, item, p, n) {
      assert !GoesOn(index, item, Attempts(item), p, n);
      assert run.attempts - 1 == n;
    }
  }

  lemma ListedStrategies(index: nat, item: Item, p: Provider)
    ensures var run := RenderPage(index, item, p);
      |run.result.strategies| == run.result.retryCount
      <==> !(run.result.status == PageCompleted && run.attempts > 1)
  {
    RunMeaning(index, item, p);
    var run := RenderPage(index, item, p);
    StrategyCount(item, run.attempts);
    StrategyCount(item, run.attempts - 1);
  }

  /** The listed strategies disagree with `retryCount` exactly when the provider renders the second or the
      third attempt after failures that call for a retry: that attempt counts, but its strategy is not
      listed. */
  lemma StrategiesMatchRetryCountIff(index: nat, item: Item, p: Provider)
    ensures var run := RenderPage(index, item, p);
      |run.result.strategies| != run.result.retryCount
      <==> RendersAt(index, item, p, 1) || RendersAt(index, item, p, 2)
  {
    PageOutcome(index, item, p);
    ListedStrategies(index, item, p);
    CompletedIffRendersAt(index, item, p, 1);
    CompletedIffRendersAt(index, item, p, 2);
  }

  /** An item on which the failing inputs below are shown. */
  function SampleItem(pageId: string, retryable: bool): Item {
    Item(pageId, "title", "hero_opening", "prompt", "", [], "low", "strong", [], retryable)
  }

  lemma ContainsItself(s: string)
    ensures Contains(s, s)
  {
  }

  lemma TimedOutIsTransient()
    ensures Transient("timed out")
  {
    assert Lower("timed out") == "timed out";
    ContainsItself("timed out");
    assert Contains(Lower("timed out"), TransientMarkers[4]);
  }

  /** An input: the first call times out and the second renders. One retry is counted, none is listed. */
  lemma RetriedPageListsNoStrategy(index: nat, p: Provider)
    requires p(index, 1, SampleItem("page-01", true)) == ProviderError("timed out")
    requires p(index, 2, TextLight(SampleItem("page-01", true))).Rendered?
    ensures var result := RenderPage(index, SampleItem("page-01", true), p).result;
      result.status == PageCompleted && result.retryCount == 1 && result.strategies == []
  {
    var item := SampleItem("page-01", true);
    TimedOutIsTransient();
    assert Attempts(item)[1].item == TextLight(item);
    assert GoesOn(index, item, Attempts(item), p, 0);
    CompletedIffRendersAt(index, item, p, 1);
    PageOutcome(index, item, p);
    RunMeaning(index, item, p);
    StrategyCount(item, 1);
  }

  lemma {:induction false} UsageCount(index: nat, attempts: seq<Attempt>, p: Provider, k: nat)
    requires k <= |attempts|
    ensures |UsageBefore(index, attempts, p, k)| >= k
    ensures |UsageBefore(index, attempts, p, k)| == k <==> forall j :: 0 <= j < k ==> !At(index, attempts, p, j).SaveError?
  {
    if k > 0 {
      UsageCount(index, attempts, p, k - 1);
    }
  }

  /** One usage record per attempt, unless an attempt failed after its call had been recorded as a
      success: each such attempt is recorded twice. */
  lemma UsageMatchesAttemptsIff(index: nat, item: Item, p: Provider)
    ensures var run := RenderPage(index, item, p);
      run.attempts <= 3 && (|run.usage| == run.attempts <==> forall j :: 0 <= j < run.attempts ==> !At(index, Attempts(item), p, j).SaveError?)
  {
    RunMeaning(index, item, p);
    UsageCount(index, Attempts(item), p, RenderPage(index, item, p).attempts);
  }

  /** An input: an image that cannot be saved, on a page that is not retried. One attempt, two records. */
  lemma SaveFailureIsRecordedTwice(index: nat, p: Provider)
    requires p(index, 1, SampleItem("page-01", false)) == SaveError("disk full")
    ensures var run := RenderPage(index, SampleItem("page-01", false), p);
      && run.attempts == 1
      && run.usage == [UsageRecord(index, 1, true, OriginalPromptRetry), UsageRecord(index, 1, false, OriginalPromptRetry)]
  {
    var item := SampleItem("page-01", false);
    var attempts := Attempts(item);
    RunMeaning(index, item, p);
    assert !GoesOn(index, item, attempts, p, 0);
    assert UsageBefore(index, attempts, p, 0) == [];
    assert UsageBefore(index, attempts, p, 1) == [] + UsageOf(index, 0, OriginalPromptRetry, SaveError("disk full"));
  }

  // ---------------------------------------------------------------- what is tried, and when

  /** `c` is `d` up to the case of ASCII letters, for a `d` that is no capital. */
  predicate FoldsTo(c: char, d: char) {
    c == d || ('A' <= c <= 'Z' && d as int == c as int + 32)
  }

  /** This part, in any case, stands at position `i` of the text. */
  ghost predicate StandsAt(text: string, part: string, i: int) {
    0 <= i && i + |part| <= |text| && forall j :: 0 <= j < |part| ==> FoldsTo(text[i + j], part[j])
  }

  ghost predicate Mentions(text: string, part: string) {
    exists i :: StandsAt(text, part, i)
  }

  lemma {:induction false} ContainsMeaning(text: string, part: string)
    requires forall j :: 0 <= j < |part| ==> !('A' <= part[j] <= 'Z')
    ensures Contains(Lower(text), part) <==> Mentions(text, part)
  {
    assert part <= Lower(text) <==> StandsAt(text, part, 0);
    if text != [] {
      assert Lower(text)[1..] == Lower(text[1..]);
      ContainsMeaning(text[1..], part);
      forall i | StandsAt(text, part, i) && i > 0 ensures StandsAt(text[1..], part, i - 1) {
      }
      forall i | StandsAt(text[1..], part, i) ensures StandsAt(text, part, i + 1) {
      }
    }
  }

  lemma TransientMeaning(error: string)
    ensures Transient(error) <==>
      || Contains(Lower(error), "bad_response_body") || Contains(Lower(error), "unexpected end of json input")
      || Contains(Lower(error), "response is not valid json") || Contains(Lower(error), "500")
      || Contains(Lower(error), "timed out")
  {
    assert TransientMarkers[0] == "bad_response_body" && TransientMarkers[1] == "unexpected end of json input";
    assert TransientMarkers[2] == "response is not valid json" && TransientMarkers[3] == "500";
    assert TransientMarkers[4] == "timed out";
  }

  /** A failed attempt is retried exactly on a retryable page, if its role is one of four or its error mentions
      one of five texts, in any case. */
  lemma RetryIsDueIff(error: string, item: Item)
    ensures ShouldContinue(error, item) <==>
      && item.retryable
      && (item.role in {"scene_value_story", "brand_trust", "gift_openbox_portable", "tea_soup_evidence"}
          || Mentions(error, "bad_response_body") || Mentions(error, "unexpected end of json input")
          || Mentions(error, "response is not valid json") || Mentions(error, "500") || Mentions(error, "timed out"))
  {
    ContainsMeaning(error, "bad_response_body");
    ContainsMeaning(error, "unexpected end of json input");
    ContainsMeaning(error, "response is not valid json");
    ContainsMeaning(error, "500");
    ContainsMeaning(error, "timed out");
    TransientMeaning(error);
  }

  /** Among the text densities, fewer words first. */
  function DensityRank(density: string): nat {
    if density == "none" then 0 else if density == "low" then 1 else if density == "medium" then 2 else 3
  }

  /** The second attempt asks for less text: at most the first selling point, no subtitle, a longer prompt. Its
      text density is lower than that of the page, unless that was none at all: then it is higher. */
  lemma SecondAttemptHasLessText(item: Item)
    ensures var second := Attempts(item)[1];
      && second.strategy == TextDensityReduction
      && item.prompt < second.item.prompt && second.item.subtitle == "" && second.item.copyStrategy == "light"
      && second.item.sellingPoints <= item.sellingPoints
      && |second.item.sellingPoints| == (if item.sellingPoints == [] then 0 else 1)
      && second.item.references == item.references
      && (DensityRank(second.item.textDensity) < DensityRank(item.textDensity) <==> item.textDensity != "none")
      && (DensityRank(second.item.textDensity) > DensityRank(item.textDensity) <==> item.textDensity == "none")
  {
    assert item.prompt <= item.prompt + "\nretry: reduce text density";
  }

  predicate Scenic(ref: AssetRef) {
    ref.role == "scene_ref" || ref.role == "bg_ref"
  }

  lemma ReboundMeaning(item: Item)
    ensures var refs := Rebound(item).references;
      if forall ref :: ref in item.references ==> Scenic(ref) then refs == item.references
      else forall ref :: ref in refs <==> ref in item.references && !Scenic(ref)
  {
    WithoutSceneIsSubsequence(item.references);
    var kept := WithoutScene(item.references);
    if kept != [] {
      assert kept[0] in kept;
    }
  }

  /** The same texts under a longer prompt. */
  ghost predicate SameTexts(item: Item, variant: Item) {
    && item.prompt < variant.prompt
    && variant.subtitle == item.subtitle && variant.copyStrategy == item.copyStrategy
    && variant.sellingPoints == item.sellingPoints && variant.textDensity == item.textDensity
  }

  /** The third drops scene and background references for four roles, unless there are no others, and asks
      for a clear packaging for the rest. The texts of the page stay as they were. */
  lemma ThirdAttempt(item: Item)
    ensures var third := Attempts(item)[2];
      && (third.strategy == ReferenceRebinding
          <==> item.role in {"scene_value_story", "brand_trust", "gift_openbox_portable", "tea_soup_evidence"})
      && (third.strategy != ReferenceRebinding ==> third.strategy == PackagingEmphasis && third.item.references == item.references)
      && (third.strategy == ReferenceRebinding ==>
            if forall ref :: ref in item.references ==> Scenic(ref) then third.item.references == item.references
            else forall ref :: ref in third.item.references <==> ref in item.references && !Scenic(ref))
      && SameTexts(item, third.item)
  {
    ReboundMeaning(item);
    assert item.prompt < item.prompt + "\nretry: weaken scene references";
    assert item.prompt < item.prompt + "\nretry: protect the packaging";
  }

  // ---------------------------------------------------------------- what a page leaves

  lemma StrategyNames(item: Item, k: nat, i: nat)
    requires k <= 3 && i + 1 < k
    ensures |StrategiesBefore(Attempts(item), k)| == k - 1 && StrategiesBefore(Attempts(item), k)[i] == Attempts(item)[i + 1].strategy
  {
    var attempts := Attempts(item);
    assert attempts[0].strategy == OriginalPromptRetry;
    assert attempts[1].strategy != OriginalPromptRetry && attempts[2].strategy != OriginalPromptRetry;
    assert StrategiesBefore(attempts, 1) == [];
    assert StrategiesBefore(attempts, 2) == [attempts[1].strategy];
    if k == 3 {
      assert StrategiesBefore(attempts, 3) == [attempts[1].strategy] + [attempts[2].strategy];
    }
  }

  /** The result of a page names it, and lists the strategies of the retries that failed, in order. A completed
      one has the size of the image that was rendered and the roles of the references it was rendered with;
      a failed one has the last error, no file, and the roles of the page. */
  lemma ResultMeaning(index: nat, item: Item, p: Provider)
    ensures var run := RenderPage(index, item, p);
      && 1 <= run.attempts <= 3
      && var last := Attempts(item)[run.attempts - 1].item;
         var h := p(index, run.attempts, last);
         var failures := if h.Rendered? then run.attempts - 1 else run.attempts;
      && run.result.index == index && run.result.pageId == item.pageId
      && run.result.title == item.title && run.result.role == item.role
      && |run.result.strategies| == (if failures == 0 then 0 else failures - 1)
      && (forall i :: 0 <= i < |run.result.strategies| ==> run.result.strategies[i] == Attempts(item)[i + 1].strategy)
      && (h.Rendered? ==>
            && run.result.relativePath == FilePath(index, item.pageId)
            && run.result.width == h.width && run.result.height == h.height
            && ListsRoles(run.result.referenceRoles, last.references) && run.result.errorMessage == "")
      && (!h.Rendered? ==>
            && run.result.relativePath == "" && run.result.width == run.result.height == 0
            && ListsRoles(run.result.referenceRoles, item.references) && run.result.errorMessage == h.message)
  {
    RunMeaning(index, item, p);
    var run := RenderPage(index, item, p);
    VariantsKeepThePage(item, run.attempts - 1);
    StrategyCount(item, run.attempts);
    StrategyCount(item, run.attempts - 1);
    forall i | 0 <= i < |run.result.strategies| ensures run.result.strategies[i] == Attempts(item)[i + 1].strategy {
      StrategyNames(item, |run.result.strategies| + 1, i);
    }
  }

  ghost predicate ListsRoles(roles: seq<string>, refs: seq<AssetRef>) {
    |roles| == |refs| && forall i :: 0 <= i < |refs| ==> roles[i] == refs[i].role
  }

  function CountIn(usage: seq<UsageRecord>, record: UsageRecord): nat {
    if usage == [] then 0 else
      var before := CountIn(usage[..|usage| - 1], record);
      if usage[|usage| - 1] == record then before + 1 else before
  }

  lemma {:induction false} CountOfConcat(a: seq<UsageRecord>, b: seq<UsageRecord>, record: UsageRecord)
    ensures CountIn(a + b, record) == CountIn(a, record) + CountIn(b, record)
  {
    if b == [] {
      assert a + b == a;
    } else {
      assert (a + b)[..|a + b| - 1] == a + b[..|b| - 1];
      CountOfConcat(a, b[..|b| - 1], record);
    }
  }

  /** How often an attempt that met `h` is recorded, as a success or as a failure: as a success unless the call
      itself failed, as a failure unless an image was rendered and saved. */
  function TimesRecorded(h: Happened, success: bool): nat {
    if (if success then !h.ProviderError? else !h.Rendered?) then 1 else 0
  }

  lemma UsageOfMeaning(index: nat, k: nat, strategy: Strategy, h: Happened, record: UsageRecord)
    ensures CountIn(UsageOf(index, k, strategy, h), record)
      == if record.page == index && record.attempt == k + 1 && record.strategy == strategy
         then TimesRecorded(h, record.success) else 0
  {
    var usage := UsageOf(index, k, strategy, h);
    assert CountIn(usage[..0], record) == 0;
    if |usage| == 2 {
      assert usage[..1][..0] == [];
    }
  }

  function Flat(parts: seq<seq<UsageRecord>>): seq<UsageRecord> {
    if parts == [] then [] else Flat(parts[..|parts| - 1]) + parts[|parts| - 1]
  }

  /** A record that is in at most one part is in the whole as often as there. */
  lemma {:induction false} OnlyInPart(parts: seq<seq<UsageRecord>>, i: nat, record: UsageRecord)
    requires forall j :: 0 <= j < |parts| && j != i ==> CountIn(parts[j], record) == 0
    ensures CountIn(Flat(parts), record) == if i < |parts| then CountIn(parts[i], record) else 0
  {
    if parts != [] {
      var n := |parts| - 1;
      OnlyInPart(parts[..n], i, record);
      CountOfConcat(Flat(parts[..n]), parts[n], record);
    }
  }

  /** What each of the first `k` attempts records. */
  function Parts(index: nat, attempts: seq<Attempt>, p: Provider, k: nat): seq<seq<UsageRecord>>
    requires k <= |attempts|
  {
    seq(k, i requires 0 <= i < k => UsageOf(index, i, attempts[i].strategy, At(index, attempts, p, i)))
  }

  lemma {:induction false} UsageIsFlat(index: nat, attempts: seq<Attempt>, p: Provider, k: nat)
    requires k <= |attempts|
    ensures UsageBefore(index, attempts, p, k) == Flat(Parts(index, attempts, p, k))
  {
    if k > 0 {
      UsageIsFlat(index, attempts, p, k - 1);
      assert Parts(index, attempts, p, k)[..k - 1] == Parts(index, attempts, p, k - 1);
    }
  }

  lemma UsageBeforeMeaning(index: nat, attempts: seq<Attempt>, p: Provider, k: nat, j: nat, success: bool)
    requires k <= |attempts| && j < |attempts|
    ensures CountIn(UsageBefore(index, attempts, p, k), UsageRecord(index, j + 1, success, attempts[j].strategy))
      == if j < k then TimesRecorded(At(index, attempts, p, j), success) else 0
  {
    var record, parts := UsageRecord(index, j + 1, success, attempts[j].strategy), Parts(index, attempts, p, k);
    UsageIsFlat(index, attempts, p, k);
    forall i | 0 <= i < k
      ensures CountIn(parts[i], record) == if i == j then TimesRecorded(At(index, attempts, p, j), success) else 0
    {
      UsageOfMeaning(index, i, attempts[i].strategy, At(index, attempts, p, i), record);
    }
    OnlyInPart(parts, j, record);
  }

  /** Records of a page: they name it and the strategies of its attempts, in the order of the attempts. */
  ghost predicate RecordsOf(usage: seq<UsageRecord>, index: nat, attempts: seq<Attempt>, k: nat) {
    && k <= |attempts|
    && (forall i :: 0 <= i < |usage| ==>
          && usage[i].page == index && 1 <= usage[i].attempt <= k
          && usage[i].strategy == attempts[usage[i].attempt - 1].strategy)
    && (forall i, j :: 0 <= i < j < |usage| ==> usage[i].attempt <= usage[j].attempt)
  }

  lemma RecordsAppended(usage: seq<UsageRecord>, index: nat, attempts: seq<Attempt>, k: nat, h: Happened)
    requires k < |attempts| && RecordsOf(usage, index, attempts, k)
    ensures RecordsOf(usage + UsageOf(index, k, attempts[k].strategy, h), index, attempts, k + 1)
  {
    var more := UsageOf(index, k, attempts[k].strategy, h);
    assert forall i :: 0 <= i < |more| ==> more[i] == UsageRecord(index, k + 1, more[i].success, attempts[k].strategy);
  }

  lemma {:induction false} UsageInOrder(index: nat, attempts: seq<Attempt>, p: Provider, k: nat)
    requires k <= |attempts|
    ensures RecordsOf(UsageBefore(index, attempts, p, k), index, attempts, k)
  {
    if k > 0 {
      var before, h := UsageBefore(index, attempts, p, k - 1), At(index, attempts, p, k - 1);
      UsageInOrder(index, attempts, p, k - 1);
      RecordsAppended(before, index, attempts, k - 1, h);
      assert UsageBefore(index, attempts, p, k) == before + UsageOf(index, k - 1, attempts[k - 1].strategy, h);
    }
  }

  /** The usage that a page records, record by record: each attempt made is recorded once as a success unless
      its call failed, and once as a failure unless an image was rendered and saved; no other is recorded. */
  lemma UsageMeaning(index: nat, item: Item, p: Provider, j: nat, success: bool)
    requires j < 3
    ensures var run, attempts := RenderPage(index, item, p), Attempts(item);
      var h := p(index, j + 1, attempts[j].item);
      && RecordsOf(run.usage, index, attempts, run.attempts)
      && CountIn(run.usage, UsageRecord(index, j + 1, success, attempts[j].strategy))
         == if j < run.attempts && (if success then !h.ProviderError? else !h.Rendered?) then 1 else 0
  {
    RunMeaning(index, item, p);
    UsageInOrder(index, Attempts(item), p, RenderPage(index, item, p).attempts);
    UsageBeforeMeaning(index, Attempts(item), p, RenderPage(index, item, p).attempts, j, success);
  }

  // ---------------------------------------------------------------- file names

  /** Reading decimal digits. */
  function Number(digits: string): nat {
    if digits == [] then 0 else
      var d := digits[|digits| - 1];
      10 * Number(digits[..|digits| - 1]) + if '0' <= d <= '9' then d as int - '0' as int else 0
  }

  ghost predicate AllDigits(s: string) {
    forall i :: 0 <= i < |s| ==> '0' <= s[i] <= '9'
  }

  lemma {:induction false} DigitsReadBack(n: nat)
    ensures Number(Digits(n)) == n && AllDigits(Digits(n)) && Digits(n) != []
    ensures n >= 10 ==> |Digits(n)| >= 2
    decreases n
  {
    var last := [('0' as int + n % 10) as char];
    if n < 10 {
      assert Digits(n) == last;
      assert Number(last[..0]) == 0;
    } else {
      DigitsReadBack(n / 10);
      assert Digits(n) == Digits(n / 10) + last;
      assert Digits(n)[..|Digits(n)| - 1] == Digits(n / 10);
    }
  }

  /** A page number has at least two digits and is read back from them. */
  lemma TwoDigitsReadBack(n: nat)
    ensures Number(TwoDigits(n)) == n && AllDigits(TwoDigits(n)) && |TwoDigits(n)| >= 2
  {
    DigitsReadBack(n);
    if n < 10 {
      assert Digits(n) == [('0' as int + n % 10) as char];
      var two := TwoDigits(n);
      assert two[..1] == "0" && two[..1][..0] == [];
      assert Number("0") == 0;
    }
  }

  lemma AffixesDrop(head: string, a: string, b: string, tail: string)
    requires head + a + tail == head + b + tail
    ensures a == b
  {
    assert (head + a + tail)[|head|..|head| + |a|] == a;
    assert (head + b + tail)[|head|..|head| + |b|] == b;
  }

  lemma PathHasParts(index: nat, pageId: string)
    ensures FilePath(index, pageId) == "generated/" + (TwoDigits(index) + ['_'] + pageId) + ".png"
  {
  }

  /** No two pages write the same file, even when their page ids are the same. */
  lemma FilesAreDistinct(i: nat, pageId: string, j: nat, other: string)
    ensures FilePath(i, pageId) == FilePath(j, other) <==> i == j && pageId == other
  {
    if FilePath(i, pageId) == FilePath(j, other) {
      PathHasParts(i, pageId);
      PathHasParts(j, other);
      AffixesDrop("generated/", TwoDigits(i) + ['_'] + pageId, TwoDigits(j) + ['_'] + other, ".png");
      TwoDigitsReadBack(i);
      TwoDigitsReadBack(j);
      SeparatorSplits(TwoDigits(i), pageId, TwoDigits(j), other, '_');
    }
  }

  // ---------------------------------------------------------------- all pages

  /** The results of the first `k` pages, in prompt order. */
  function Results(plan: seq<Item>, p: Provider, k: nat): (r: seq<Result>)
    requires k <= |plan|
  {
    seq(k, i requires 0 <= i < k => RenderPage(i + 1, plan[i], p).result)
  }

  /** Results are listed in prompt order, and fewer pages give the beginning of the list. */
  lemma ResultsArePrefixes(plan: seq<Item>, p: Provider, j: nat, k: nat)
    requires j <= k <= |plan|
    ensures |Results(plan, p, k)| == k && Results(plan, p, k)[..j] == Results(plan, p, j)
    ensures forall i :: 0 <= i < k ==> Results(plan, p, k)[i] == RenderPage(i + 1, plan[i], p).result
  {
  }

  function Usage(plan: seq<Item>, p: Provider, k: nat): seq<UsageRecord>
    requires k <= |plan|
  {
    if k == 0 then [] else Usage(plan, p, k - 1) + RenderPage(k, plan[k - 1], p).usage
  }

  lemma ResultsGrow(plan: seq<Item>, p: Provider, k: nat)
    requires k < |plan|
    ensures Results(plan, p, k + 1) == Results(plan, p, k) + [RenderPage(k + 1, plan[k], p).result]
  {
  }

  datatype Callback = Callback(completed: nat, total: nat, results: seq<Result>)

  /** Every report written for the first `k` pages, in order. */
  function History(plan: seq<Item>, p: Provider, k: nat): seq<seq<Result>>
    requires k <= |plan|
  {
    if k == 0 then [] else History(plan, p, k - 1) + [Results(plan, p, k)]
  }

  /** The progress callbacks made for the first `k` pages, in order. */
  function Notices(plan: seq<Item>, p: Provider, k: nat): seq<Callback>
    requires k <= |plan|
  {
    if k == 0 then [] else Notices(plan, p, k - 1) + [Callback(k, |plan|, Results(plan, p, k))]
  }

  lemma {:induction false} HistoryIsPrefixes(plan: seq<Item>, p: Provider, k: nat)
    requires k <= |plan|
    ensures |History(plan, p, k)| == k && forall i :: 0 <= i < k ==> History(plan, p, k)[i] == Results(plan, p, i + 1)
    ensures |Notices(plan, p, k)| == k
      && forall i :: 0 <= i < k ==> Notices(plan, p, k)[i] == Callback(i + 1, |plan|, Results(plan, p, i + 1))
  {
    if k > 0 {
      HistoryIsPrefixes(plan, p, k - 1);
    }
  }

  /** What a render run leaves behind: the report on disk, every report before it, the callbacks made and
      the usage recorded. */
  datatype Files = Files(
    report: seq<Result>, reports: seq<seq<Result>>, callbacks: seq<Callback>, usage: seq<UsageRecord>)

  function AfterPages(was: Files, plan: seq<Item>, p: Provider, observed: bool, k: nat): Files
    requires k <= |plan|
  {
    Files(if k == 0 then was.report else Results(plan, p, k),
          was.reports + History(plan, p, k),
          was.callbacks + (if observed then Notices(plan, p, k) else []),
          was.usage + Usage(plan, p, k))
  }

  function OnePage(was: Files, results: seq<Result>, page: PageRun, total: nat, observed: bool): Files {
    var all := results + [page.result];
    Files(all, was.reports + [all],
          if observed then was.callbacks + [Callback(|all|, total, all)] else was.callbacks,
          was.usage + page.usage)
  }

  lemma PageAddsToFiles(was: Files, plan: seq<Item>, p: Provider, observed: bool, k: nat)
    requires k < |plan|
    ensures OnePage(AfterPages(was, plan, p, observed, k), Results(plan, p, k), RenderPage(k + 1, plan[k], p), |plan|, observed)
      == AfterPages(was, plan, p, observed, k + 1)
  {
    var page := RenderPage(k + 1, plan[k], p);
    ResultsGrow(plan, p, k);
    assert Results(plan, p, k + 1) == Results(plan, p, k) + [page.result];
    Associative(was.reports, History(plan, p, k), [Results(plan, p, k + 1)]);
    Associative(was.callbacks, Notices(plan, p, k), [Callback(k + 1, |plan|, Results(plan, p, k + 1))]);
    Associative(was.usage, Usage(plan, p, k), page.usage);
  }

  /** What is on disk during a render run, whatever was there before: after `k > 0` pages the report is
      exactly their results, and before the first page it is the report of an earlier run, if any. */
  lemma ReportOnDiskIff(was: Files, plan: seq<Item>, p: Provider, observed: bool, k: nat)
    requires k <= |plan|
    ensures AfterPages(was, plan, p, observed, k).report == Results(plan, p, k) <==> k > 0 || was.report == []
  {
    assert Results(plan, p, 0) == [];
  }

  lemma {:induction false} NoRecord(usage: seq<UsageRecord>, record: UsageRecord)
    requires forall i :: 0 <= i < |usage| ==> usage[i].page != record.page
    ensures CountIn(usage, record) == 0
  {
    if usage != [] {
      NoRecord(usage[..|usage| - 1], record);
    }
  }

  /** Part `i` holds only records of page `i + 1`. */
  ghost predicate PagesApart(parts: seq<seq<UsageRecord>>) {
    forall i :: 0 <= i < |parts| ==> AllOfPage(parts[i], i + 1)
  }

  lemma RecordsByPage(parts: seq<seq<UsageRecord>>, record: UsageRecord)
    requires PagesApart(parts)
    ensures CountIn(Flat(parts), record) == if 1 <= record.page <= |parts| then CountIn(parts[record.page - 1], record) else 0
  {
    forall i | 0 <= i < |parts| && i + 1 != record.page ensures CountIn(parts[i], record) == 0 {
      assert AllOfPage(parts[i], i + 1);
      NoRecord(parts[i], record);
    }
    OnlyInPart(parts, if record.page == 0 then |parts| else record.page - 1, record);
  }

  /** What each of the first `k` pages records. */
  function PageParts(plan: seq<Item>, p: Provider, k: nat): seq<seq<UsageRecord>>
    requires k <= |plan|
  {
    seq(k, i requires 0 <= i < k => RenderPage(i + 1, plan[i], p).usage)
  }

  lemma {:induction false} UsageIsFlatOfPages(plan: seq<Item>, p: Provider, k: nat)
    requires k <= |plan|
    ensures Usage(plan, p, k) == Flat(PageParts(plan, p, k))
  {
    if k > 0 {
      UsageIsFlatOfPages(plan, p, k - 1);
      assert PageParts(plan, p, k)[..k - 1] == PageParts(plan, p, k - 1);
    }
  }

  ghost predicate AllOfPage(usage: seq<UsageRecord>, index: nat) {
    forall n :: 0 <= n < |usage| ==> usage[n].page == index
  }

  lemma PageNamesItself(index: nat, item: Item, p: Provider)
    ensures AllOfPage(RenderPage(index, item, p).usage, index)
  {
    UsageMeaning(index, item, p, 0, true);
  }

  lemma PagePartsApart(plan: seq<Item>, p: Provider, k: nat)
    requires k <= |plan|
    ensures PagesApart(PageParts(plan, p, k))
  {
    var parts := PageParts(plan, p, k);
    forall i | 0 <= i < k ensures AllOfPage(parts[i], i + 1) {
      PageNamesItself(i + 1, plan[i], p);
    }
  }

  lemma UsageOfPages(plan: seq<Item>, p: Provider, k: nat, record: UsageRecord)
    requires k <= |plan|
    ensures CountIn(Usage(plan, p, k), record)
      == if 1 <= record.page <= k then CountIn(PageParts(plan, p, k)[record.page - 1], record) else 0
  {
    UsageIsFlatOfPages(plan, p, k);
    PagePartsApart(plan, p, k);
    RecordsByPage(PageParts(plan, p, k), record);
  }

  /** The usage log after `k` pages holds, besides what was there, the records of each of those pages. */
  lemma UsageLogMeaning(was: Files, plan: seq<Item>, p: Provider, observed: bool, k: nat, record: UsageRecord)
    requires k <= |plan|
    ensures CountIn(AfterPages(was, plan, p, observed, k).usage, record)
      == CountIn(was.usage, record)
         + if 1 <= record.page <= k then CountIn(PageParts(plan, p, k)[record.page - 1], record) else 0
  {
    UsageOfPages(plan, p, k, record);
    CountOfConcat(was.usage, Usage(plan, p, k), record);
  }

  /** The reports written, and the lists given to the observer, are the reports on disk after each page. */
  lemma WrittenAndShown(was: Files, plan: seq<Item>, p: Provider, observed: bool, k: nat, j: nat)
    requires j < k <= |plan|
    ensures var after, early := AfterPages(was, plan, p, observed, k), AfterPages(was, plan, p, observed, j + 1);
      && |after.reports| == |was.reports| + k && after.reports[|was.reports| + j] == early.report
      && |after.callbacks| == |was.callbacks| + (if observed then k else 0)
      && (observed ==> after.callbacks[|was.callbacks| + j] == Callback(j + 1, |plan|, early.report))
  {
    HistoryIsPrefixes(plan, p, k);
  }

  /** `DetailRenderService`, with the files it writes: the report, and everything the report has been. */
  class Renderer {
    var report: seq<Result>
    var usageLog: seq<UsageRecord>
    ghost var reports: seq<seq<Result>>
    ghost var callbacks: seq<Callback>

    constructor ()
      ensures report == [] && usageLog == [] && reports == [] && callbacks == []
    {
      report, usageLog, reports, callbacks := [], [], [], [];
    }

    /** `_render_with_retry`. */
    method RenderWithRetry(index: nat, item: Item, p: Provider) returns (result: Result)
      modifies this`usageLog
      ensures result == RenderPage(index, item, p).result
      ensures usageLog == old(usageLog) + RenderPage(index, item, p).usage
    {
      var attempts := Attempts(item);
      var strategies: seq<Strategy> := [];
      var lastError := "";
      ghost var recorded := [];
      for k := 0 to |attempts|
        invariant usageLog == old(usageLog) + recorded
        invariant k < |attempts|
        invariant TryFrom(index, item, attempts, p, k, strategies, recorded) == RenderPage(index, item, p)
      {
        var a := attempts[k];
        var h := p(index, k + 1, a.item);
        usageLog := usageLog + UsageOf(index, k, a.strategy, h);
        recorded := recorded + UsageOf(index, k, a.strategy, h);
        if h.Rendered? {
          return CompletedResult(index, a.item, h, k, strategies);
        }
        lastError := h.message;
        if a.strategy != OriginalPromptRetry {
          strategies := strategies + [a.strategy];
        }
        if k + 1 >= |attempts| {
          break;
        }
        if !ShouldContinue(lastError, item) {
          break;
        }
      }
      return FailedResult(index, item, lastError, strategies);
    }

    ghost function Current(): Files
      reads this
    {
      Files(report, reports, callbacks, usageLog)
    }

    method RenderNext(
      results: seq<Result>, index: nat, total: nat, item: Item, p: Provider, observed: bool)
      returns (all: seq<Result>)
      requires index == |results| + 1
      modifies this
      ensures all == results + [RenderPage(index, item, p).result]
      ensures Current() == OnePage(old(Current()), results, RenderPage(index, item, p), total, observed)
    {
      var result := RenderWithRetry(index, item, p);
      all := results + [result];
      report := all;
      reports := reports + [all];
      if observed {
        callbacks := callbacks + [Callback(index, total, all)];
      }
    }

    /** `render_pages`: after each page the report on disk is rewritten with the results so far. */
    method RenderPages(plan: seq<Item>, p: Provider, observed: bool) returns (results: seq<Result>)
      modifies this
      ensures results == Results(plan, p, |plan|)
      ensures Current() == AfterPages(old(Current()), plan, p, observed, |plan|)
    {
      results := [];
      assert Current() == AfterPages(old(Current()), plan, p, observed, 0);
      for k := 0 to |plan|
        invariant results == Results(plan, p, k)
        invariant Current() == AfterPages(old(Current()), plan, p, observed, k)
      {
        PageAddsToFiles(old(Current()), plan, p, observed, k);
        ResultsGrow(plan, p, k);
        results := RenderNext(results, k + 1, |plan|, plan[k], p, observed);
      }
    }
  }

  // ---------------------------------------------------------------- the runtime view

  datatype TaskStatus = Created | Running | ReviewRequired | Completed | Failed

  datatype ImageStatus = ImageQueued | ImageRunning | ImageCompleted | ImageFailed

  datatype Image = Image(
    number: nat, pageId: string, title: string, role: string, status: ImageStatus,
    fileName: string, width: nat, height: nat, referenceRoles: seq<string>,
    errorMessage: string, retryCount: nat)

  /** `render_map`: of several rows with one page id the last wins. */
  function RowOf(report: seq<Result>, pageId: string): Option<Result> {
    if report == [] then None
    else if report[|report| - 1].pageId == pageId then Some(report[|report| - 1])
    else RowOf(report[..|report| - 1], pageId)
  }

  function Placeholder(status: TaskStatus, number: nat, processed: nat): ImageStatus {
    match status
    case Created => ImageQueued
    case Running => if number == processed + 1 then ImageRunning else ImageQueued
    case Failed => if number <= processed then ImageFailed else ImageQueued
    case ReviewRequired => if number > processed then ImageQueued else ImageFailed
    case Completed => ImageCompleted
  }

  function ImageOf(status: TaskStatus, number: nat, item: Item, report: seq<Result>): Image {
    var row := RowOf(report, item.pageId);
    if row.Some? && row.value.status == PageCompleted && row.value.relativePath != "" then
      var r := row.value;
      Image(number, item.pageId, item.title, item.role, ImageCompleted, r.relativePath, r.width, r.height,
            r.referenceRoles, "", r.retryCount)
    else if row.Some? && row.value.status == PageFailed then
      var r := row.value;
      Image(number, item.pageId, item.title, item.role, ImageFailed, "", 0, 0, r.referenceRoles,
            r.errorMessage, r.retryCount)
    else
      Image(number, item.pageId, item.title, item.role, Placeholder(status, number, |report|), "", 0, 0,
            Roles(item.references), "", 0)
  }

  /** `_build_images` for a task that has a prompt plan. */
  function Images(status: TaskStatus, step: string, plan: seq<Item>, report: seq<Result>): seq<Image> {
    if report == [] && step == "detail_generate_prompt" then [] else
      seq(|plan|, i requires 0 <= i < |plan| => ImageOf(status, i + 1, plan[i], report))
  }

  method BuildImages(status: TaskStatus, step: string, plan: seq<Item>, report: seq<Result>)
    returns (images: seq<Image>)
    ensures images == Images(status, step, plan, report)
  {
    if report == [] && step == "detail_generate_prompt" {
      return [];
    }
    images := [];
    for i := 0 to |plan|
      invariant |images| == i
      invariant forall j :: 0 <= j < i ==> images[j] == ImageOf(status, j + 1, plan[j], report)
    {
      images := images + [ImageOf(status, i + 1, plan[i], report)];
    }
  }

  ghost predicate DistinctPages(plan: seq<Item>) {
    forall i, j :: 0 <= i < j < |plan| ==> plan[i].pageId != plan[j].pageId
  }

  /** A page before position `k` has this page id. */
  ghost predicate SeenBefore(plan: seq<Item>, k: nat, pageId: string)
    requires k <= |plan|
  {
    exists i :: 0 <= i < k && plan[i].pageId == pageId
  }

  lemma {:induction false} RowIsLastMatch(report: seq<Result>, pageId: string) returns (i: int)
    ensures -1 <= i < |report|
    ensures forall j :: i < j < |report| ==> report[j].pageId != pageId
    ensures i >= 0 ==> report[i].pageId == pageId
    ensures RowOf(report, pageId) == if i < 0 then None else Some(report[i])
  {
    i := |report| - 1;
    if report != [] && report[|report| - 1].pageId != pageId {
      i := RowIsLastMatch(report[..|report| - 1], pageId);
    }
  }

  /** A row that names page `item` and whose fields fit its status. */
  ghost predicate RowFits(row: Result, item: Item) {
    && row.pageId == item.pageId
    && (row.status == PageCompleted <==> row.relativePath != "")
    && (row.status == PageCompleted ==> row.errorMessage == "")
  }

  /** The first rows of a report on this plan. */
  ghost predicate ReportOn(report: seq<Result>, plan: seq<Item>) {
    |report| <= |plan| && forall i :: 0 <= i < |report| ==> RowFits(report[i], plan[i])
  }

  lemma RenderedRowFits(index: nat, item: Item, p: Provider)
    ensures RowFits(RenderPage(index, item, p).result, item)
  {
    RunMeaning(index, item, p);
    PageOutcome(index, item, p);
  }

  lemma ResultsAreReport(plan: seq<Item>, p: Provider, k: nat)
    requires k <= |plan|
    ensures |Results(plan, p, k)| == k && ReportOn(Results(plan, p, k), plan)
  {
    forall i | 0 <= i < k ensures RowFits(Results(plan, p, k)[i], plan[i]) {
      RenderedRowFits(i + 1, plan[i], p);
    }
  }

  /** The view of a running task after `k` pages: `k` settled images, one running, the rest queued. */
  ghost predicate RunningShape(images: seq<Image>, n: nat, k: nat) {
    && |images| == n
    && (forall i :: 0 <= i < n && i < k ==> Settled(images[i]))
    && (k < n ==> images[k].status == ImageRunning)
    && (forall i :: k < i < n ==> images[i].status == ImageQueued)
  }

  predicate Settled(image: Image) {
    image.status == ImageCompleted || image.status == ImageFailed
  }

  /** The image shows the outcome of this row. */
  predicate Shows(image: Image, row: Result) {
    && image.status == (if row.status == PageCompleted then ImageCompleted else ImageFailed)
    && image.pageId == row.pageId && image.fileName == row.relativePath
    && image.referenceRoles == row.referenceRoles
    && image.errorMessage == row.errorMessage && image.retryCount == row.retryCount
  }

  /** Each settled image shows the outcome of its own page. */
  ghost predicate ShowsOwnResults(images: seq<Image>, results: seq<Result>) {
    |results| <= |images| && forall i :: 0 <= i < |results| ==> Shows(images[i], results[i])
  }

  /** The image of a page shows the last row with its id, or a placeholder when there is none. */
  lemma ImageMeaning(plan: seq<Item>, report: seq<Result>, i: nat) returns (row: int)
    requires ReportOn(report, plan) && i < |plan|
    ensures -1 <= row < |report|
    ensures forall j :: row < j < |report| ==> plan[j].pageId != plan[i].pageId
    ensures row >= 0 ==> plan[row].pageId == plan[i].pageId
    ensures var image := ImageOf(Running, i + 1, plan[i], report);
      if row >= 0 then Shows(image, report[row])
      else image.status == if i == |report| then ImageRunning else ImageQueued
  {
    row := RowIsLastMatch(report, plan[i].pageId);
    forall j | row < j < |report| ensures plan[j].pageId != plan[i].pageId {
      assert RowFits(report[j], plan[j]);
    }
    if row >= 0 {
      assert RowFits(report[row], plan[row]);
    }
  }

  lemma ImageSettledIff(plan: seq<Item>, report: seq<Result>, i: nat)
    requires ReportOn(report, plan) && i < |plan|
    ensures var image := ImageOf(Running, i + 1, plan[i], report);
      if SeenBefore(plan, |report|, plan[i].pageId) then Settled(image)
      else image.status == if i == |report| then ImageRunning else ImageQueued
  {
    var row := ImageMeaning(plan, report, i);
    if SeenBefore(plan, |report|, plan[i].pageId) {
      var j :| 0 <= j < |report| && plan[j].pageId == plan[i].pageId;
      assert row >= 0;
    }
  }

  lemma ShapeIff(plan: seq<Item>, report: seq<Result>, step: string)
    requires ReportOn(report, plan) && (report != [] || step != "detail_generate_prompt")
    ensures RunningShape(Images(Running, step, plan, report), |plan|, |report|)
      <==> forall i :: |report| <= i < |plan| ==> !SeenBefore(plan, |report|, plan[i].pageId)
  {
    var images, k := Images(Running, step, plan, report), |report|;
    forall i | 0 <= i < |plan|
      ensures images[i] == ImageOf(Running, i + 1, plan[i], report)
      ensures if SeenBefore(plan, k, plan[i].pageId) then Settled(images[i])
              else images[i].status == if i == k then ImageRunning else ImageQueued
      ensures i < k ==> SeenBefore(plan, k, plan[i].pageId)
    {
      ImageSettledIff(plan, report, i);
    }
  }

  lemma OwnRowsShown(plan: seq<Item>, report: seq<Result>, step: string)
    requires ReportOn(report, plan) && DistinctPages(plan)
    ensures ShowsOwnResults(Images(Running, step, plan, report), report)
  {
    var images := Images(Running, step, plan, report);
    forall i | 0 <= i < |report| ensures Shows(images[i], report[i]) {
      var row := ImageMeaning(plan, report, i);
      assert row == i;
    }
  }

  // ---------------------------------------------------------------- the view of any task

  /** Row `j` is the last with this page id. */
  ghost predicate LastRow(report: seq<Result>, j: int, pageId: string) {
    && 0 <= j < |report| && report[j].pageId == pageId
    && forall n :: j < n < |report| ==> report[n].pageId != pageId
  }

  /** A page without a row in the report, or with one that is completed without a file, in the view of a task in
      any state: it is done only if the task is, failed only if the task failed or waits for review and its
      place was passed, and running only if it is the next one of a running task. */
  lemma UnrenderedPageShows(status: TaskStatus, step: string, plan: seq<Item>, report: seq<Result>, i: nat)
    requires i < |plan| && (report != [] || step != "detail_generate_prompt")
    requires forall j :: LastRow(report, j, plan[i].pageId) ==> report[j].status == PageCompleted && report[j].relativePath == ""
    ensures var view := Images(status, step, plan, report);
      && |view| == |plan|
      && (view[i].status == ImageCompleted <==> status == Completed)
      && (view[i].status == ImageRunning <==> status == Running && i == |report|)
      && (view[i].status == ImageFailed <==> (status == Failed || status == ReviewRequired) && i < |report|)
      && view[i].fileName == "" && view[i].errorMessage == "" && view[i].retryCount == 0
      && view[i].width == view[i].height == 0 && ListsRoles(view[i].referenceRoles, plan[i].references)
  {
    var row := RowIsLastMatch(report, plan[i].pageId);
    assert row >= 0 ==> LastRow(report, row, plan[i].pageId);
  }

  /** A page whose last row failed or has a file, in the view of a task in any state, shows that row. */
  lemma RenderedPageShows(status: TaskStatus, step: string, plan: seq<Item>, report: seq<Result>, i: nat, j: nat)
    requires i < |plan| && LastRow(report, j, plan[i].pageId)
    requires report[j].status == PageFailed || report[j].relativePath != ""
    ensures var view, row := Images(status, step, plan, report), report[j];
      && |view| == |plan|
      && view[i].referenceRoles == row.referenceRoles && view[i].retryCount == row.retryCount
      && (row.status == PageCompleted ==>
            && view[i].status == ImageCompleted && view[i].fileName == row.relativePath
            && view[i].width == row.width && view[i].height == row.height && view[i].errorMessage == "")
      && (row.status == PageFailed ==>
            && view[i].status == ImageFailed && view[i].fileName == ""
            && view[i].width == view[i].height == 0 && view[i].errorMessage == row.errorMessage)
  {
    var row := RowIsLastMatch(report, plan[i].pageId);
    assert row == j;
  }

  /** Whatever it shows, an image stands for its own page, and nothing is shown only while prompts are being
      generated and no report is there. */
  lemma ViewListsThePlan(status: TaskStatus, step: string, plan: seq<Item>, report: seq<Result>)
    ensures var view := Images(status, step, plan, report);
      if report == [] && step == "detail_generate_prompt" then view == []
      else
        && |view| == |plan|
        && forall i :: 0 <= i < |plan| ==>
             view[i].number == i + 1 && view[i].pageId == plan[i].pageId && view[i].title == plan[i].title && view[i].role == plan[i].role
  {
  }

  /** The view of the running job after `k` pages of a render run that found `was` on disk. */
  function ViewAfter(was: Files, plan: seq<Item>, p: Provider, observed: bool, k: nat, step: string): seq<Image>
    requires k <= |plan|
  {
    Images(Running, step, plan, AfterPages(was, plan, p, observed, k).report)
  }

  /** Before the first page the view has its shape exactly when no report was left by an earlier run. */
  lemma FirstViewIff(plan: seq<Item>, report: seq<Result>, step: string)
    ensures RunningShape(Images(Running, step, plan, report), |plan|, 0)
      <==> plan == [] || (report == [] && step != "detail_generate_prompt")
  {
    var images := Images(Running, step, plan, report);
    if plan != [] && |images| == |plan| {
      var row := RowIsLastMatch(report, plan[0].pageId);
      assert images[0] == ImageOf(Running, 1, plan[0], report);
      if report == [] {
        forall i | 0 < i < |plan| ensures images[i].status == ImageQueued {
          assert images[i] == ImageOf(Running, i + 1, plan[i], report);
        }
      }
    }
  }

  /** After `k` pages of any render run, whatever it found on disk, the running view has its shape exactly
      when: before the first page, no report was left by an earlier run; later, no page still to come
      carries the id of a page already rendered. */
  lemma RunningViewIff(was: Files, plan: seq<Item>, p: Provider, observed: bool, k: nat, step: string)
    requires k <= |plan|
    ensures RunningShape(ViewAfter(was, plan, p, observed, k, step), |plan|, k)
      <==> if k == 0 then plan == [] || (was.report == [] && step != "detail_generate_prompt")
           else forall i :: k <= i < |plan| ==> !SeenBefore(plan, k, plan[i].pageId)
  {
    if k == 0 {
      FirstViewIff(plan, was.report, step);
    } else {
      ResultsAreReport(plan, p, k);
      ShapeIff(plan, Results(plan, p, k), step);
    }
  }

  /** With distinct page ids the view has its shape from the first finished page on, and every settled
      image shows the result of its own page in this run; before that it has its shape exactly when no
      report was left by an earlier run. */
  lemma DistinctPagesAreShown(was: Files, plan: seq<Item>, p: Provider, observed: bool, k: nat, step: string)
    requires k <= |plan| && DistinctPages(plan)
    ensures RunningShape(ViewAfter(was, plan, p, observed, k, step), |plan|, k)
      <==> k > 0 || plan == [] || (was.report == [] && step != "detail_generate_prompt")
    ensures k > 0 ==> ShowsOwnResults(ViewAfter(was, plan, p, observed, k, step), Results(plan, p, k))
  {
    RunningViewIff(was, plan, p, observed, k, step);
    if k > 0 {
      ResultsAreReport(plan, p, k);
      OwnRowsShown(plan, Results(plan, p, k), step);
    }
  }

  /** The shape holds at every point of a run exactly when the page ids are distinct and the run found no
      report of an earlier one. */
  lemma ShapeAlwaysIff(was: Files, plan: seq<Item>, p: Provider, observed: bool, step: string)
    ensures (forall k :: 0 <= k <= |plan| ==> RunningShape(ViewAfter(was, plan, p, observed, k, step), |plan|, k))
      <==> DistinctPages(plan) && (plan == [] || (was.report == [] && step != "detail_generate_prompt"))
  {
    RunningViewIff(was, plan, p, observed, 0, step);
    if DistinctPages(plan) {
      forall k | 0 <= k <= |plan|
        ensures RunningShape(ViewAfter(was, plan, p, observed, k, step), |plan|, k)
          <==> k > 0 || plan == [] || (was.report == [] && step != "detail_generate_prompt")
      {
        DistinctPagesAreShown(was, plan, p, observed, k, step);
      }
    } else {
      var i, j :| 0 <= i < j < |plan| && plan[i].pageId == plan[j].pageId;
      RunningViewIff(was, plan, p, observed, i + 1, step);
      assert SeenBefore(plan, i + 1, plan[j].pageId);
    }
  }

  /** A job that runs again in its directory: until the first page of the new run is done, the view shows
      every page settled, with the result of the earlier run, and none running. */
  lemma RetriedRunLooksDone(was: Files, plan: seq<Item>, p: Provider, earlier: Provider, observed: bool, step: string, i: nat)
    requires was.report == Results(plan, earlier, |plan|) && DistinctPages(plan) && i < |plan|
    ensures var view := ViewAfter(was, plan, p, observed, 0, step);
      && |view| == |plan|
      && Settled(view[i]) && Shows(view[i], RenderPage(i + 1, plan[i], earlier).result)
      && !RunningShape(view, |plan|, 0)
  {
    ResultsAreReport(plan, earlier, |plan|);
    OwnRowsShown(plan, was.report, step);
    ResultsArePrefixes(plan, earlier, i, |plan|);
    RunningViewIff(was, plan, p, observed, 0, step);
  }

  /** An input for repeated ids: a plan whose two pages share one. After the first page, none is running. */
  lemma RepeatedPageHidesTheRest(was: Files, p: Provider, observed: bool, step: string)
    ensures var plan := [SampleItem("page-01", true), SampleItem("page-01", true)];
      !RunningShape(ViewAfter(was, plan, p, observed, 1, step), 2, 1)
  {
    var plan := [SampleItem("page-01", true), SampleItem("page-01", true)];
    RunningViewIff(was, plan, p, observed, 1, step);
    assert plan[0].pageId == plan[1].pageId;
    assert SeenBefore(plan, 1, plan[1].pageId);
  }
}
