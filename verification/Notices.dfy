/** The launcher's notice poll (launcher/notices.go): which notices become desktop
    toasts, and the high-water mark kept from one poll to the next. */
module Notices {
  import opened Prelude

  datatype Notice = Notice(id: int, kind: string, body: string)
  datatype Toast = Toast(title: string, body: string) | More(count: nat)

  const MAX_TOASTS_PER_POLL: nat := 3

  function NoticeTitle(kind: string): string {
    if kind == "broken" then "SmartBrain: card needs attention"
    else if kind == "repaired" then "SmartBrain: card repaired itself"
    else "SmartBrain alert"
  }

  ghost function ToastOf(n: Notice): Toast {
    Toast(NoticeTitle(n.kind), n.body)
  }

  /** The notices above the mark, newest first as they came. */
  ghost function Above(notices: seq<Notice>, mark: int): seq<Notice> {
    if notices == [] then []
    else (if notices[0].id > mark then [notices[0]] else []) + Above(notices[1..], mark)
  }

  /** The highest id among the notices and `base`. */
  ghost function Highest(notices: seq<Notice>, base: int): int {
    if notices == [] then base
    else Highest(notices[1..], if notices[0].id > base then notices[0].id else base)
  }

  lemma {:induction false} AboveAppend(a: seq<Notice>, n: Notice, mark: int)
    ensures Above(a + [n], mark) == Above(a, mark) + Above([n], mark)
    decreases |a|
  {
    if a == [] {
      assert a + [n] == [n];
    } else {
      assert (a + [n])[1..] == a[1..] + [n];
      AboveAppend(a[1..], n, mark);
    }
  }

  lemma {:induction false} HighestAppend(a: seq<Notice>, n: Notice, base: int)
    ensures Highest(a + [n], base) == if n.id > Highest(a, base) then n.id else Highest(a, base)
    decreases |a|
  {
    if a == [] {
      assert a + [n] == [n] && [n][1..] == [];
      assert Highest([n], base) == Highest([], if n.id > base then n.id else base);
    } else {
      assert (a + [n])[1..] == a[1..] + [n];
      HighestAppend(a[1..], n, if a[0].id > base then a[0].id else base);
    }
  }

  /** The notices a poll must surface: nothing before a baseline exists. */
  ghost function Fresh(notices: seq<Notice>, lastSeen: int): seq<Notice> {
    if lastSeen < 0 then [] else Above(notices, lastSeen)
  }

  /** What the desktop shows for a list of news notices. */
  ghost predicate Shows(toasts: seq<Toast>, news: seq<Notice>) {
    if |news| <= MAX_TOASTS_PER_POLL then
      |toasts| == |news| && forall i :: 0 <= i < |news| ==> toasts[i] == ToastOf(news[i])
    else
      && |toasts| == MAX_TOASTS_PER_POLL
      && toasts[0] == ToastOf(news[0]) && toasts[1] == ToastOf(news[1])
      && toasts[2] == More(|news| - 2)
  }

  method SelectNotifications(notices: seq<Notice>, lastSeen: int) returns (toasts: seq<Toast>, high: int)
    ensures high == Highest(notices, if lastSeen < 0 then 0 else lastSeen)
    ensures Shows(toasts, Fresh(notices, lastSeen))
  {
    high := lastSeen;
    if high < 0 {
      high := 0;
    }
    var news: seq<Notice> := [];
    for i := 0 to |notices|
      invariant high == Highest(notices[..i], if lastSeen < 0 then 0 else lastSeen)
      invariant news == Fresh(notices[..i], lastSeen)
    {
      var n := notices[i];
      assert notices[..i + 1] == notices[..i] + [n];
      AboveAppend(notices[..i], n, lastSeen);
      HighestAppend(notices[..i], n, if lastSeen < 0 then 0 else lastSeen);
      assert [n][1..] == [];
      if n.id > high {
        high := n.id;
      }
      if lastSeen >= 0 && n.id > lastSeen {
        news := news + [n];
      }
    }
    assert notices[..|notices|] == notices;
    var shown := |news|;
    if shown > MAX_TOASTS_PER_POLL {
      shown := MAX_TOASTS_PER_POLL - 1;
    }
    toasts := [];
    for i := 0 to shown
      invariant |toasts| == i
      invariant forall j :: 0 <= j < i ==> toasts[j] == ToastOf(news[j])
    {
      toasts := toasts + [Toast(NoticeTitle(news[i].kind), news[i].body)];
    }
    if |news| > MAX_TOASTS_PER_POLL {
      toasts := toasts + [More(|news| - shown)];
    }
  }

  /** The state the poll loop keeps in a package variable, and the toasts it has sent. */
  class Watcher {
    var lastSeen: int
    var shown: seq<Toast>

    constructor ()
      ensures lastSeen == -1 && shown == []
    {
      lastSeen := -1;
      shown := [];
    }

    /** One turn of the poll loop.  `answer` is None when the app is down or locked. */
    method Poll(answer: Option<seq<Notice>>)
      modifies this
      ensures lastSeen == MarkAfter(old(lastSeen), answer)
      ensures |old(shown)| <= |shown| && shown[..|old(shown)|] == old(shown)
      ensures match answer
              case None => shown == old(shown)
              case Some(ns) => Shows(shown[|old(shown)|..], Fresh(ns, old(lastSeen)))
    {
      match answer {
        case None =>
        case Some(notices) =>
          var toasts, last := SelectNotifications(notices, lastSeen);
          lastSeen := last;
          shown := shown + toasts;
          assert shown[|old(shown)|..] == toasts;
      }
    }
  }

  // ----- over many polls ----------------------------------------------------------

  ghost function MarkAfter(mark: int, answer: Option<seq<Notice>>): int {
    match answer
    case None => mark
    case Some(ns) => Highest(ns, if mark < 0 then 0 else mark)
  }

  /** The mark before poll k of a run that starts at launch. */
  ghost function MarkAt(polls: seq<Option<seq<Notice>>>, k: nat): int
    requires k <= |polls|
  {
    if k == 0 then -1 else MarkAfter(MarkAt(polls, k - 1), polls[k - 1])
  }

  ghost function FreshAt(polls: seq<Option<seq<Notice>>>, k: nat): seq<Notice>
    requires k < |polls|
  {
    match polls[k]
    case None => []
    case Some(ns) => Fresh(ns, MarkAt(polls, k))
  }

  ghost predicate Answered(polls: seq<Option<seq<Notice>>>, j: nat, id: int)
    requires j < |polls|
  {
    polls[j].Some? && exists n :: n in polls[j].value && n.id == id
  }

  lemma {:induction false} HighestIsMax(notices: seq<Notice>, base: int)
    ensures var h := Highest(notices, base);
            && h >= base && (forall n :: n in notices ==> n.id <= h)
            && (h == base || exists n :: n in notices && n.id == h)
    decreases |notices|
  {
    if notices != [] {
      var b := if notices[0].id > base then notices[0].id else base;
      HighestIsMax(notices[1..], b);
      var h := Highest(notices, base);
      forall n | n in notices ensures n.id <= h {
        assert n == notices[0] || n in notices[1..];
      }
      if h != base && h != b {
        var n :| n in notices[1..] && n.id == h;
        assert n in notices;
      } else if h != base {
        assert notices[0] in notices;
      }
    }
  }

  lemma {:induction false} AboveMembers(notices: seq<Notice>, mark: int)
    ensures forall n :: n in Above(notices, mark) <==> n in notices && n.id > mark
    decreases |notices|
  {
    if notices != [] {
      AboveMembers(notices[1..], mark);
    }
  }

  lemma {:induction false} AboveMore(notices: seq<Notice>, n: Notice, mark: int)
    ensures Above(notices + [n], mark) == Above(notices, mark) + if n.id > mark then [n] else []
  {
    AboveAppend(notices, n, mark);
    assert [n][1..] == [];
  }

  /** What a poll surfaces, one by one: the notices above the mark, each as often as it was
      answered and in that order. */
  lemma {:induction false} AboveTells(notices: seq<Notice>, mark: int) returns (picks: seq<nat>)
    ensures Rising(picks) && |picks| == |Above(notices, mark)|
    ensures forall i: nat :: i in picks <==> i < |notices| && notices[i].id > mark
    ensures forall k :: 0 <= k < |picks| ==> picks[k] < |notices| && Above(notices, mark)[k] == notices[picks[k]]
    decreases |notices|
  {
    if notices == [] {
      picks := [];
    } else {
      var init, last := notices[..|notices| - 1], notices[|notices| - 1];
      var before := AboveTells(init, mark);
      assert notices == init + [last];
      AboveMore(init, last, mark);
      RisingMore(before, |init|);
      hide Above, Rising;
      picks := if last.id > mark then before + [|init|] else before;
    }
  }

  /** The mark is the highest id ever answered, clipped at zero, once a poll has
      succeeded; before that it is -1. */
  lemma {:induction false} MarkIsHighestAnswered(polls: seq<Option<seq<Notice>>>, k: nat)
    requires k <= |polls|
    ensures var m := MarkAt(polls, k);
            && (m < 0 <==> forall j :: 0 <= j < k ==> polls[j].None?)
            && (m < 0 ==> m == -1)
            && (forall j, id :: 0 <= j < k && Answered(polls, j, id) ==> id <= m)
            && (m > 0 ==> exists j :: 0 <= j < k && Answered(polls, j, m))
  {
    if k > 0 {
      MarkIsHighestAnswered(polls, k - 1);
      var before := MarkAt(polls, k - 1);
      if polls[k - 1].Some? {
        HighestIsMax(polls[k - 1].value, if before < 0 then 0 else before);
        var m := MarkAt(polls, k);
        if m > 0 && m != before {
          assert Answered(polls, k - 1, m);
        }
      } else {
        assert MarkAt(polls, k) == before;
      }
    }
  }

  /** Exactly which notices surface: a notice of poll k is toasted (by itself or in the
      count of the summary) iff some earlier poll succeeded and its id is positive and
      above every id any earlier poll answered. */
  lemma SurfacesExactly(polls: seq<Option<seq<Notice>>>, k: nat, n: Notice)
    requires k < |polls| && polls[k].Some? && n in polls[k].value
    ensures n in FreshAt(polls, k) <==>
            (&& (exists j :: 0 <= j < k && polls[j].Some?)
             && n.id > 0
             && (forall j, id :: 0 <= j < k && Answered(polls, j, id) ==> id < n.id))
  {
    MarkIsHighestAnswered(polls, k);
    AboveMembers(polls[k].value, MarkAt(polls, k));
  }

  /** Which polls surface nothing: the failed ones, the first that succeeds, and those that
      answer nothing positive above every id answered before. */
  lemma SilentPolls(polls: seq<Option<seq<Notice>>>, k: nat)
    requires k < |polls|
    ensures FreshAt(polls, k) == [] <==>
            (|| polls[k].None?
             || (forall j :: 0 <= j < k ==> polls[j].None?)
             || forall n :: n in polls[k].value ==>
                  n.id <= 0 || exists j, id :: 0 <= j < k && Answered(polls, j, id) && id >= n.id)
  {
    if polls[k].Some? {
      var ns := FreshAt(polls, k);
      assert ns != [] ==> ns[0] in ns;
      AboveMembers(polls[k].value, MarkAt(polls, k));
      forall n | n in polls[k].value
        ensures n in ns <==>
                (&& (exists j :: 0 <= j < k && polls[j].Some?)
                 && n.id > 0
                 && (forall j, id :: 0 <= j < k && Answered(polls, j, id) ==> id < n.id))
      {
        SurfacesExactly(polls, k, n);
      }
    }
  }

  /** No notice is toasted by two polls: what a later poll surfaces has a larger id. */
  lemma NeverTwice(polls: seq<Option<seq<Notice>>>, j: nat, k: nat, n: Notice, m: Notice)
    requires j < k < |polls|
    requires n in FreshAt(polls, j) && m in FreshAt(polls, k)
    ensures n.id < m.id
  {
    MarkIsHighestAnswered(polls, k);
    AboveMembers(polls[j].value, MarkAt(polls, j));
    AboveMembers(polls[k].value, MarkAt(polls, k));
    assert Answered(polls, j, n.id);
  }
}
