/** The sidebar chat history of components/custom/chat-history-grouped-list.tsx:
    `groupChatsByDate`, which sorts chats into five date groups, and the
    title shown for a chat.

    Dates are milliseconds. The calendar questions `date-fns` answers
    (`isToday`, `isYesterday`, and the instants one week and one month
    before now) are given as a `Calendar` value. */
module ChatHistory {
  import opened Basics

  /** A chat as the list sees it; `title` is None for `null`. */
  datatype Chat = Chat(id: string, title: Option<string>, createdAt: int)

  /** The local calendar at the moment of grouping: the day number of an
      instant, today's day number, and `subWeeks(now, 1)` / `subMonths(now, 1)`. */
  datatype Calendar = Calendar(dayOf: int -> int, today: int, oneWeekAgo: int, oneMonthAgo: int)

  predicate IsToday(cal: Calendar, date: int)
  {
    cal.dayOf(date) == cal.today
  }

  predicate IsYesterday(cal: Calendar, date: int)
  {
    cal.dayOf(date) == cal.today - 1
  }

  datatype Bucket = Today | Yesterday | LastWeek | LastMonth | Older

  /** The group a chat created at `date` goes to; the tests are tried in
      this order and the week and month bounds are strict. */
  function Classify(cal: Calendar, date: int): (b: Bucket)
    ensures b == Today <==> IsToday(cal, date)
    ensures b == Yesterday <==> !IsToday(cal, date) && IsYesterday(cal, date)
    ensures b == LastWeek <==> !IsToday(cal, date) && !IsYesterday(cal, date) && date > cal.oneWeekAgo
    ensures b == LastMonth <==> !IsToday(cal, date) && !IsYesterday(cal, date)
                                && date <= cal.oneWeekAgo && date > cal.oneMonthAgo
  {
    if IsToday(cal, date) then Today
    else if IsYesterday(cal, date) then Yesterday
    else if date > cal.oneWeekAgo then LastWeek
    else if date > cal.oneMonthAgo then LastMonth
    else Older
  }

  /** The chats of one group, in input order. */
  function InBucket(cal: Calendar, chats: seq<Chat>, b: Bucket): (r: seq<Chat>)
    ensures |r| <= |chats|
    decreases |chats|
  {
    if chats == [] then []
    else
      var last := chats[|chats| - 1];
      InBucket(cal, chats[..|chats| - 1], b) + (if Classify(cal, last.createdAt) == b then [last] else [])
  }

  /** `GroupedChats`. */
  datatype Groups = Groups(today: seq<Chat>, yesterday: seq<Chat>, lastWeek: seq<Chat>,
                           lastMonth: seq<Chat>, older: seq<Chat>)

  function Group(g: Groups, b: Bucket): seq<Chat>
  {
    match b
    case Today => g.today
    case Yesterday => g.yesterday
    case LastWeek => g.lastWeek
    case LastMonth => g.lastMonth
    case Older => g.older
  }

  /** `groupChatsByDate`: one pass that pushes each chat onto its group. */
  method GroupChatsByDate(cal: Calendar, chats: seq<Chat>) returns (g: Groups)
    ensures forall b :: Group(g, b) == InBucket(cal, chats, b)
  {
    var today, yesterday, lastWeek, lastMonth, older := [], [], [], [], [];
    var i := 0;
    while i < |chats|
      invariant 0 <= i <= |chats|
      invariant today == InBucket(cal, chats[..i], Today)
      invariant yesterday == InBucket(cal, chats[..i], Yesterday)
      invariant lastWeek == InBucket(cal, chats[..i], LastWeek)
      invariant lastMonth == InBucket(cal, chats[..i], LastMonth)
      invariant older == InBucket(cal, chats[..i], Older)
    {
      var chat := chats[i];
      assert chats[..i + 1][..i] == chats[..i];
      if IsToday(cal, chat.createdAt) {
        today := today + [chat];
      } else if IsYesterday(cal, chat.createdAt) {
        yesterday := yesterday + [chat];
      } else if chat.createdAt > cal.oneWeekAgo {
        lastWeek := lastWeek + [chat];
      } else if chat.createdAt > cal.oneMonthAgo {
        lastMonth := lastMonth + [chat];
      } else {
        older := older + [chat];
      }
      i := i + 1;
    }
    assert chats[..|chats|] == chats;
    g := Groups(today, yesterday, lastWeek, lastMonth, older);
  }

  /** Total number of chats over the five groups. */
  function Total(cal: Calendar, chats: seq<Chat>): nat
  {
    |InBucket(cal, chats, Today)| + |InBucket(cal, chats, Yesterday)| + |InBucket(cal, chats, LastWeek)|
    + |InBucket(cal, chats, LastMonth)| + |InBucket(cal, chats, Older)|
  }

  /** The multiset of chats over all five groups. */
  function AllGroups(cal: Calendar, chats: seq<Chat>): multiset<Chat>
  {
    multiset(InBucket(cal, chats, Today)) + multiset(InBucket(cal, chats, Yesterday))
    + multiset(InBucket(cal, chats, LastWeek)) + multiset(InBucket(cal, chats, LastMonth))
    + multiset(InBucket(cal, chats, Older))
  }

  /** A group holds every occurrence of the chats classified into it,
      and nothing else. */
  lemma {:induction false} BucketCount(cal: Calendar, chats: seq<Chat>, b: Bucket, x: Chat)
    ensures multiset(InBucket(cal, chats, b))[x]
            == if Classify(cal, x.createdAt) == b then multiset(chats)[x] else 0
    decreases |chats|
  {
    if chats != [] {
      var init := chats[..|chats| - 1];
      BucketCount(cal, init, b, x);
      assert chats == init + [chats[|chats| - 1]];
    }
  }

  /** Every chat lands in exactly one group: the groups together hold the
      input, each chat as often as it occurs there. */
  lemma GroupsPartition(cal: Calendar, chats: seq<Chat>)
    ensures AllGroups(cal, chats) == multiset(chats)
  {
    forall x: Chat
      ensures AllGroups(cal, chats)[x] == multiset(chats)[x]
    {
      BucketCount(cal, chats, Today, x);
      BucketCount(cal, chats, Yesterday, x);
      BucketCount(cal, chats, LastWeek, x);
      BucketCount(cal, chats, LastMonth, x);
      BucketCount(cal, chats, Older, x);
    }
  }

  /** So no chat is lost or counted twice. */
  lemma GroupsCount(cal: Calendar, chats: seq<Chat>)
    ensures Total(cal, chats) == |chats|
  {
    GroupsPartition(cal, chats);
    assert |AllGroups(cal, chats)| == Total(cal, chats);
  }

  /** Grouping respects order: the group of a concatenation is the group
      of the first part followed by the group of the second. */
  lemma {:induction false} InBucketAppend(cal: Calendar, xs: seq<Chat>, ys: seq<Chat>, b: Bucket)
    ensures InBucket(cal, xs + ys, b) == InBucket(cal, xs, b) + InBucket(cal, ys, b)
    decreases |ys|
  {
    if ys == [] {
      assert xs + ys == xs;
    } else {
      var init := ys[..|ys| - 1];
      InBucketAppend(cal, xs, init, b);
      assert (xs + ys)[..|xs + ys| - 1] == xs + init;
    }
  }

  /** A chat placed before another in the input is placed before it in
      their common group. */
  lemma KeepsOrder(cal: Calendar, chats: seq<Chat>, i: int, j: int)
    requires 0 <= i < j < |chats|
    requires Classify(cal, chats[i].createdAt) == Classify(cal, chats[j].createdAt)
    ensures var b := Classify(cal, chats[i].createdAt);
            var r := InBucket(cal, chats, b);
            exists p, q :: 0 <= p < q < |r| && r[p] == chats[i] && r[q] == chats[j]
  {
    var b := Classify(cal, chats[i].createdAt);
    var pre := chats[..i];
    var mid := chats[i + 1..j];
    var post := chats[j + 1..];
    assert chats == pre + [chats[i]] + mid + [chats[j]] + post;
    InBucketAppend(cal, pre + [chats[i]] + mid + [chats[j]], post, b);
    InBucketAppend(cal, pre + [chats[i]] + mid, [chats[j]], b);
    InBucketAppend(cal, pre + [chats[i]], mid, b);
    InBucketAppend(cal, pre, [chats[i]], b);
    assert InBucket(cal, [chats[i]], b) == [chats[i]] by {
      assert [chats[i]][..0] == [];
    }
    assert InBucket(cal, [chats[j]], b) == [chats[j]] by {
      assert [chats[j]][..0] == [];
    }
    var r := InBucket(cal, chats, b);
    var p := |InBucket(cal, pre, b)|;
    var q := p + 1 + |InBucket(cal, mid, b)|;
    assert r[p] == chats[i] && r[q] == chats[j];
  }

  /** The week bound is strict: a chat from exactly one week ago, and not
      from today or yesterday, is not in the last-week group. */
  lemma WeekBoundIsStrict(cal: Calendar)
    requires !IsToday(cal, cal.oneWeekAgo) && !IsYesterday(cal, cal.oneWeekAgo)
    ensures Classify(cal, cal.oneWeekAgo) != LastWeek
    ensures cal.oneWeekAgo > cal.oneMonthAgo ==> Classify(cal, cal.oneWeekAgo) == LastMonth
  {
  }

  /** No chats, five empty groups. */
  lemma NoChats(cal: Calendar, b: Bucket)
    ensures InBucket(cal, [], b) == []
  {
  }

  /** The text shown for a chat: its title, or 'Nueva conversación' when
      the title is null or empty. */
  function DisplayTitle(chat: Chat): (t: string)
    ensures t != []
    ensures chat.title.Some? && chat.title.value != [] ==> t == chat.title.value
    ensures chat.title.None? || chat.title.value == [] ==> t == "Nueva conversación"
  {
    if chat.title.Some? && chat.title.value != [] then chat.title.value else "Nueva conversación"
  }
}
