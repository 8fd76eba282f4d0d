/**
 * Greeting candidates (modules/interaction.py): the step chain of one
 * greeting, which stops at the first step that fails, and the batch loop
 * with its counters, its skip rule and its `max_count` cut-off.
 *
 * The browser is a parameter: a `GreetingPage` says which steps of the chain
 * succeed on a candidate's page, and the batch loop receives the outcome of
 * each greeting as a function of the request it makes. `random.choice` is
 * the parameter `pick`.
 */
module Interaction {
  import opened Common

  // ---------------------------------------------------------------------------
  // One greeting

  /** Which steps succeed on the page: navigation, the contact button, the message box, typing, sending. */
  datatype GreetingPage = GreetingPage(navigates: bool, contactClickable: bool, inputAppears: bool,
                                       typingWorks: bool, sendWorks: bool)

  /** The browser actions of a greeting, in the order they are attempted. */
  datatype Action = Navigate(url: string) | ClickContact | AwaitInput | TypeMessage(text: string) | Submit

  /** An index into the five greeting templates, as `random.choice` picks one. */
  type TemplateIndex = i: nat | i < 5

  /** The five greeting templates, filled in as `str.format` fills their named fields. */
  function FillTemplate(pick: TemplateIndex, company: string, position: string, skill: string, industry: string): (r: string)
    ensures |r| > 3 && r[..3] == "您好，"
  {
    match pick
    case 0 => "您好，我是" + company + "的HR，看到您的简历很符合我们的职位要求，想和您聊聊。"
    case 1 => "您好，我们公司有个" + position + "的职位很适合您，不知道您是否有兴趣了解一下？"
    case 2 => "您好，看到您在" + skill + "方面的经验很丰富，我们正好有个相关的职位机会。"
    case 3 => "您好，我是" + company + "的招聘负责人，您的背景很符合我们的需求，方便聊聊吗？"
    case 4 => "您好，我们是一家" + industry + "公司，看到您的简历很优秀，想邀请您了解一下我们的职位。"
  }

  /** The text typed: a non-empty message as it is, otherwise the picked template filled in. */
  function GreetingText(message: Option<string>, pick: TemplateIndex, company: string, position: string,
                        skill: string, industry: string): string
  {
    if message.Some? && message.value != "" then message.value
    else FillTemplate(pick, company, position, skill, industry)
  }

  /** The full chain of a greeting that types `text`. */
  function GreetingActions(url: string, text: string): (actions: seq<Action>)
    ensures |actions| == 5
  {
    [Navigate(url), ClickContact, AwaitInput, TypeMessage(text), Submit]
  }

  /** How many actions are attempted: up to and including the first one that fails. */
  function ActionsAttempted(page: GreetingPage): (n: nat)
    ensures 1 <= n <= 5
    ensures n == 5 <==> (page.navigates && page.contactClickable && page.inputAppears && page.typingWorks)
  {
    if !page.navigates then 1
    else if !page.contactClickable then 2
    else if !page.inputAppears then 3
    else if !page.typingWorks then 4
    else 5
  }

  predicate AllStepsSucceed(page: GreetingPage)
  {
    page.navigates && page.contactClickable && page.inputAppears && page.typingWorks && page.sendWorks
  }

  /**
   * `send_greeting`: navigate, click the contact button, wait for the message
   * box, type the text, send; the first failure ends the greeting with false.
   */
  method SendGreeting(page: GreetingPage, url: string, message: Option<string>, pick: TemplateIndex,
                      company: string, position: string, skill: string, industry: string)
    returns (ok: bool, actions: seq<Action>)
    ensures ok <==> AllStepsSucceed(page)
    ensures actions == GreetingActions(url, GreetingText(message, pick, company, position, skill, industry))[..ActionsAttempted(page)]
  {
    ghost var text := GreetingText(message, pick, company, position, skill, industry);
    ghost var full := GreetingActions(url, text);
    actions := [Navigate(url)];
    if !page.navigates {
      return false, actions;
    }
    actions := actions + [ClickContact];
    if !page.contactClickable {
      return false, actions;
    }
    actions := actions + [AwaitInput];
    if !page.inputAppears {
      return false, actions;
    }
    var typed := if message.Some? && message.value != "" then message.value
                 else FillTemplate(pick, company, position, skill, industry);
    actions := actions + [TypeMessage(typed)];
    if !page.typingWorks {
      assert actions == full[..4];
      return false, actions;
    }
    actions := actions + [Submit];
    if !page.sendWorks {
      return false, actions;
    }
    assert actions == full;
    return true, actions;
  }

  /** A successful greeting ran the whole chain and typed a non-empty message unchanged. */
  lemma CustomMessageIsTypedVerbatim(page: GreetingPage, url: string, message: string, pick: TemplateIndex,
                                     company: string, position: string, skill: string, industry: string)
    requires message != "" && AllStepsSucceed(page)
    ensures GreetingActions(url, GreetingText(Some(message), pick, company, position, skill, industry))[..ActionsAttempted(page)][3]
            == TypeMessage(message)
  {
  }

  // ---------------------------------------------------------------------------
  // A batch of greetings

  /** A candidate entry as the batch reads it; `Malformed` is one whose `get` raises (not a dictionary). */
  datatype Entry =
    | Record(name: Option<string>, company: Option<string>, profileUrl: Option<string>)
    | Malformed

  /** What one greeting is asked to do. */
  datatype GreetingRequest = GreetingRequest(url: string, message: Option<string>, company: string, position: string)

  datatype Detail = Detail(name: string, company: string, url: string, success: bool)

  datatype Report = Report(total: int, success: int, failed: int, details: seq<Detail>)

  const EmptyReport := Report(0, 0, 0, [])

  function OrElse(v: Option<string>, default: string): string
  {
    if v.Some? then v.value else default
  }

  /** An entry that is greeted (when the cut-off allows): a readable record with a non-empty profile URL. */
  predicate Greetable(e: Entry)
  {
    e.Record? && OrElse(e.profileUrl, "") != ""
  }

  function RequestFor(e: Entry, message: Option<string>): GreetingRequest
    requires e.Record?
  {
    GreetingRequest(OrElse(e.profileUrl, ""), message, OrElse(e.company, "我们公司"), OrElse(e.name, "相关职位"))
  }

  /**
   * The batch from entry `i` on, as written, with `count` greetings attempted
   * so far and the report `acc`: stop at the end or once `count` reaches
   * `maxCount`; an entry without URL is skipped; a greeting appends its
   * detail and bumps total and success or failed, and one more failure is
   * added when the pause after it raises. A malformed entry makes the
   * per-candidate handler's own log line raise, so the outer handler returns
   * the all-zero report.
   */
  function BatchFrom(entries: seq<Entry>, i: nat, message: Option<string>, pauseWorks: bool, maxCount: int,
                     greet: GreetingRequest -> bool, count: int, acc: Report): Report
    decreases |entries| - i
  {
    if i >= |entries| || count >= maxCount then acc
    else
      var e := entries[i];
      if e.Malformed? then EmptyReport
      else if !Greetable(e) then
        BatchFrom(entries, i + 1, message, pauseWorks, maxCount, greet, count, acc)
      else
        BatchFrom(entries, i + 1, message, pauseWorks, maxCount, greet, count + 1, Greeted(e, message, pauseWorks, greet, acc))
  }

  /** The detail a greeting of `e` appends to the report. */
  function DetailFor(e: Entry, message: Option<string>, greet: GreetingRequest -> bool): (d: Detail)
    requires e.Record?
    ensures d.url == OrElse(e.profileUrl, "")
  {
    var req := RequestFor(e, message);
    Detail(OrElse(e.name, "未知"), OrElse(e.company, "未知"), req.url, greet(req))
  }

  /** The report after greeting `e`: one more detail, total, and success or failure, plus a failure when the pause raises. */
  function Greeted(e: Entry, message: Option<string>, pauseWorks: bool, greet: GreetingRequest -> bool, acc: Report): Report
    requires e.Record?
  {
    var d := DetailFor(e, message, greet);
    Report(acc.total + 1, acc.success + (if d.success then 1 else 0),
           acc.failed + (if d.success then 0 else 1) + (if pauseWorks then 0 else 1),
           acc.details + [d])
  }

  /**
   * The batch as its per-candidate handler intends it: a malformed entry adds
   * one failure and the loop goes on; otherwise as `BatchFrom`.
   */
  function IntendedBatchFrom(entries: seq<Entry>, i: nat, message: Option<string>, pauseWorks: bool, maxCount: int,
                             greet: GreetingRequest -> bool, count: int, acc: Report): Report
    decreases |entries| - i
  {
    if i >= |entries| || count >= maxCount then acc
    else
      var e := entries[i];
      if e.Malformed? then
        IntendedBatchFrom(entries, i + 1, message, pauseWorks, maxCount, greet, count, acc.(failed := acc.failed + 1))
      else if !Greetable(e) then
        IntendedBatchFrom(entries, i + 1, message, pauseWorks, maxCount, greet, count, acc)
      else
        IntendedBatchFrom(entries, i + 1, message, pauseWorks, maxCount, greet, count + 1, Greeted(e, message, pauseWorks, greet, acc))
  }

  /** `batch_greeting`: when the candidate list cannot be read at all, the report is all zeros. */
  method BatchGreeting(candidates: Option<seq<Entry>>, message: Option<string>, pauseWorks: bool, maxCount: int,
                       greet: GreetingRequest -> bool)
    returns (report: Report)
    ensures candidates.None? ==> report == EmptyReport
    ensures candidates.Some? ==> report == BatchFrom(candidates.value, 0, message, pauseWorks, maxCount, greet, 0, EmptyReport)
  {
    if candidates.None? {
      return EmptyReport;
    }
    var entries := candidates.value;
    report := EmptyReport;
    var count := 0;
    var i := 0;
    while i < |entries|
      invariant 0 <= i <= |entries|
      invariant BatchFrom(entries, i, message, pauseWorks, maxCount, greet, count, report)
                == BatchFrom(entries, 0, message, pauseWorks, maxCount, greet, 0, EmptyReport)
    {
      if count >= maxCount {
        break;
      }
      var e := entries[i];
      if e.Malformed? {
        return EmptyReport;
      }
      var url := OrElse(e.profileUrl, "");
      if url == "" {
        i := i + 1;
        continue;
      }
      var success := greet(GreetingRequest(url, message, OrElse(e.company, "我们公司"), OrElse(e.name, "相关职位")));
      var detail := Detail(OrElse(e.name, "未知"), OrElse(e.company, "未知"), url, success);
      report := report.(details := report.details + [detail], total := report.total + 1);
      if success {
        report := report.(success := report.success + 1);
      } else {
        report := report.(failed := report.failed + 1);
      }
      count := count + 1;
      if !pauseWorks {
        report := report.(failed := report.failed + 1);
      }
      i := i + 1;
    }
  }

  // ---------------------------------------------------------------------------
  // What the batch report satisfies

  /** The URLs of the greetable entries, in order. */
  function GreetableUrls(entries: seq<Entry>): seq<string>
  {
    if entries == [] then []
    else (if Greetable(entries[0]) then [OrElse(entries[0].profileUrl, "")] else []) + GreetableUrls(entries[1..])
  }

  function DetailUrls(details: seq<Detail>): seq<string>
  {
    if details == [] then [] else [details[0].url] + DetailUrls(details[1..])
  }

  function SuccessCount(details: seq<Detail>): nat
  {
    if details == [] then 0 else (if details[0].success then 1 else 0) + SuccessCount(details[1..])
  }

  /** Every entry from `i` on is a readable record. */
  predicate WellFormedFrom(entries: seq<Entry>, i: nat)
  {
    forall j :: i <= j < |entries| ==> entries[j].Record?
  }

  function Max0(n: int): nat { if n < 0 then 0 else n }

  lemma DetailUrlsAppend(details: seq<Detail>, d: Detail)
    ensures DetailUrls(details + [d]) == DetailUrls(details) + [d.url]
  {
    if details != [] {
      assert (details + [d])[1..] == details[1..] + [d];
      DetailUrlsAppend(details[1..], d);
    }
  }

  lemma SuccessCountAppend(details: seq<Detail>, d: Detail)
    ensures SuccessCount(details + [d]) == SuccessCount(details) + (if d.success then 1 else 0)
  {
    if details != [] {
      assert (details + [d])[1..] == details[1..] + [d];
      SuccessCountAppend(details[1..], d);
    }
  }

  /**
   * The details record exactly the greetable entries, in candidate order, up
   * to the cut-off: the first min(maxCount - count, #greetable) of them.
   */
  lemma GreetableUrlsStep(entries: seq<Entry>, i: nat)
    requires i < |entries|
    ensures GreetableUrls(entries[i..])
            == (if Greetable(entries[i]) then [OrElse(entries[i].profileUrl, "")] else []) + GreetableUrls(entries[i + 1..])
  {
    assert entries[i..][1..] == entries[i + 1..];
  }

  lemma {:induction false} DetailsFollowCandidateOrder(entries: seq<Entry>, i: nat, message: Option<string>, pauseWorks: bool,
                                                       maxCount: int, greet: GreetingRequest -> bool, count: int, acc: Report)
    requires i <= |entries| && WellFormedFrom(entries, i)
    ensures var r := BatchFrom(entries, i, message, pauseWorks, maxCount, greet, count, acc);
            var urls := GreetableUrls(entries[i..]);
            DetailUrls(r.details) == DetailUrls(acc.details) + urls[..Min(Max0(maxCount - count), |urls|)]
    decreases |entries| - i
  {
    var r := BatchFrom(entries, i, message, pauseWorks, maxCount, greet, count, acc);
    var urls := GreetableUrls(entries[i..]);
    if i == |entries| {
      assert urls == [];
      assert r == acc;
    } else if count >= maxCount {
      assert r == acc;
      assert Min(Max0(maxCount - count), |urls|) == 0;
    } else {
      var e := entries[i];
      GreetableUrlsStep(entries, i);
      var rest := GreetableUrls(entries[i + 1..]);
      if !Greetable(e) {
        assert r == BatchFrom(entries, i + 1, message, pauseWorks, maxCount, greet, count, acc);
        DetailsFollowCandidateOrder(entries, i + 1, message, pauseWorks, maxCount, greet, count, acc);
        assert urls == rest;
      } else {
        var detail := DetailFor(e, message, greet);
        var next := Greeted(e, message, pauseWorks, greet, acc);
        assert r == BatchFrom(entries, i + 1, message, pauseWorks, maxCount, greet, count + 1, next);
        DetailsFollowCandidateOrder(entries, i + 1, message, pauseWorks, maxCount, greet, count + 1, next);
        DetailUrlsAppend(acc.details, detail);
        assert urls == [detail.url] + rest;
        var k := Min(Max0(maxCount - (count + 1)), |rest|);
        assert Min(Max0(maxCount - count), |urls|) == k + 1;
        assert urls[..k + 1] == [detail.url] + rest[..k];
      }
    }
  }

  /** Each greeting adds one detail and one to the total: the total is the number of details. */
  lemma {:induction false} TotalCountsDetails(entries: seq<Entry>, i: nat, message: Option<string>, pauseWorks: bool,
                                              maxCount: int, greet: GreetingRequest -> bool, count: int, acc: Report)
    requires i <= |entries| && acc.total == |acc.details|
    ensures var r := BatchFrom(entries, i, message, pauseWorks, maxCount, greet, count, acc);
            r.total == |r.details|
    decreases |entries| - i
  {
    if i < |entries| && count < maxCount {
      var e := entries[i];
      if e.Malformed? {
        assert BatchFrom(entries, i, message, pauseWorks, maxCount, greet, count, acc) == EmptyReport;
      } else if !Greetable(e) {
        TotalCountsDetails(entries, i + 1, message, pauseWorks, maxCount, greet, count, acc);
      } else {
        var detail := DetailFor(e, message, greet);
        var next := Greeted(e, message, pauseWorks, greet, acc);
        TotalCountsDetails(entries, i + 1, message, pauseWorks, maxCount, greet, count + 1, next);
      }
    }
  }

  /** `success` counts exactly the details whose greeting returned true. */
  lemma {:induction false} SuccessCountsSuccessfulDetails(entries: seq<Entry>, i: nat, message: Option<string>, pauseWorks: bool,
                                                          maxCount: int, greet: GreetingRequest -> bool, count: int, acc: Report)
    requires i <= |entries| && acc.success == SuccessCount(acc.details)
    ensures var r := BatchFrom(entries, i, message, pauseWorks, maxCount, greet, count, acc);
            r.success == SuccessCount(r.details)
    decreases |entries| - i
  {
    if i < |entries| && count < maxCount {
      var e := entries[i];
      if e.Malformed? {
        assert BatchFrom(entries, i, message, pauseWorks, maxCount, greet, count, acc) == EmptyReport;
      } else if !Greetable(e) {
        SuccessCountsSuccessfulDetails(entries, i + 1, message, pauseWorks, maxCount, greet, count, acc);
      } else {
        var detail := DetailFor(e, message, greet);
        var next := Greeted(e, message, pauseWorks, greet, acc);
        SuccessCountAppend(acc.details, detail);
        SuccessCountsSuccessfulDetails(entries, i + 1, message, pauseWorks, maxCount, greet, count + 1, next);
      }
    }
  }

  /**
   * With a working pause every greeting is counted once, as a success or as
   * a failure: success + failed == total.
   */
  lemma {:induction false} FailuresAccountedFor(entries: seq<Entry>, i: nat, message: Option<string>, pauseWorks: bool,
                                                maxCount: int, greet: GreetingRequest -> bool, count: int, acc: Report)
    requires i <= |entries| && pauseWorks
    requires acc.success + acc.failed == acc.total
    ensures var r := BatchFrom(entries, i, message, pauseWorks, maxCount, greet, count, acc);
            r.success + r.failed == r.total
    decreases |entries| - i
  {
    if i < |entries| && count < maxCount {
      var e := entries[i];
      if e.Malformed? {
        assert BatchFrom(entries, i, message, pauseWorks, maxCount, greet, count, acc) == EmptyReport;
      } else if !Greetable(e) {
        FailuresAccountedFor(entries, i + 1, message, pauseWorks, maxCount, greet, count, acc);
      } else {
        var detail := DetailFor(e, message, greet);
        var next := Greeted(e, message, pauseWorks, greet, acc);
        FailuresAccountedFor(entries, i + 1, message, pauseWorks, maxCount, greet, count + 1, next);
      }
    }
  }

  /**
   * As written, a malformed entry after a successful greeting wipes the whole
   * report, although that greeting was sent; the intended batch keeps it and
   * counts one failure.
   */
  lemma MalformedEntryErasesReport(url: string, message: Option<string>, maxCount: int, greet: GreetingRequest -> bool)
    requires url != "" && maxCount > 1
    requires greet(GreetingRequest(url, message, "我们公司", "相关职位"))
    ensures var entries := [Record(None, None, Some(url)), Malformed];
            BatchFrom(entries, 0, message, true, maxCount, greet, 0, EmptyReport) == EmptyReport
            && IntendedBatchFrom(entries, 0, message, true, maxCount, greet, 0, EmptyReport)
               == Report(1, 1, 1, [Detail("未知", "未知", url, true)])
  {
    var entries := [Record(None, None, Some(url)), Malformed];
    var greeted := Greeted(entries[0], message, true, greet, EmptyReport);
    assert greeted == Report(1, 1, 0, [Detail("未知", "未知", url, true)]);
    assert BatchFrom(entries, 0, message, true, maxCount, greet, 0, EmptyReport)
           == BatchFrom(entries, 1, message, true, maxCount, greet, 1, greeted);
    assert IntendedBatchFrom(entries, 0, message, true, maxCount, greet, 0, EmptyReport)
           == IntendedBatchFrom(entries, 1, message, true, maxCount, greet, 1, greeted)
           == IntendedBatchFrom(entries, 2, message, true, maxCount, greet, 1, greeted.(failed := 1));
  }

  /** The intended batch never loses progress: earlier details stay and no counter goes down. */
  lemma {:induction false} IntendedKeepsProgress(entries: seq<Entry>, i: nat, message: Option<string>, pauseWorks: bool,
                                                 maxCount: int, greet: GreetingRequest -> bool, count: int, acc: Report)
    requires i <= |entries|
    ensures var r := IntendedBatchFrom(entries, i, message, pauseWorks, maxCount, greet, count, acc);
            |acc.details| <= |r.details| && r.details[..|acc.details|] == acc.details
            && r.total >= acc.total && r.success >= acc.success && r.failed >= acc.failed
    decreases |entries| - i
  {
    if i < |entries| && count < maxCount {
      var e := entries[i];
      if e.Malformed? {
        IntendedKeepsProgress(entries, i + 1, message, pauseWorks, maxCount, greet, count, acc.(failed := acc.failed + 1));
      } else if !Greetable(e) {
        IntendedKeepsProgress(entries, i + 1, message, pauseWorks, maxCount, greet, count, acc);
      } else {
        var next := Greeted(e, message, pauseWorks, greet, acc);
        IntendedKeepsProgress(entries, i + 1, message, pauseWorks, maxCount, greet, count + 1, next);
        var r := IntendedBatchFrom(entries, i + 1, message, pauseWorks, maxCount, greet, count + 1, next);
        assert r.details[..|acc.details|] == next.details[..|next.details|][..|acc.details|];
      }
    }
  }

  /** On readable records the batch as written and the intended batch agree. */
  lemma {:induction false} IntendedAgreesOnWellFormed(entries: seq<Entry>, i: nat, message: Option<string>, pauseWorks: bool,
                                                      maxCount: int, greet: GreetingRequest -> bool, count: int, acc: Report)
    requires i <= |entries| && WellFormedFrom(entries, i)
    ensures IntendedBatchFrom(entries, i, message, pauseWorks, maxCount, greet, count, acc)
            == BatchFrom(entries, i, message, pauseWorks, maxCount, greet, count, acc)
    decreases |entries| - i
  {
    if i < |entries| && count < maxCount {
      var e := entries[i];
      if !Greetable(e) {
        IntendedAgreesOnWellFormed(entries, i + 1, message, pauseWorks, maxCount, greet, count, acc);
      } else {
        IntendedAgreesOnWellFormed(entries, i + 1, message, pauseWorks, maxCount, greet, count + 1,
                                   Greeted(e, message, pauseWorks, greet, acc));
      }
    }
  }

  /** A greeting whose pause raises is counted both as a success and as a failure. */
  lemma PauseFailureDoubleCounts(url: string, message: Option<string>, maxCount: int, greet: GreetingRequest -> bool)
    requires url != "" && maxCount > 0
    requires greet(GreetingRequest(url, message, "我们公司", "相关职位"))
    ensures var r := BatchFrom([Record(None, None, Some(url))], 0, message, false, maxCount, greet, 0, EmptyReport);
            r.total == 1 && r.success == 1 && r.failed == 1
  {
  }
}
