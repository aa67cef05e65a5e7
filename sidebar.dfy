/**
 * The chat list of src/components/Sidebar.tsx: the calendar predicates
 * "this week" and "this month", the three date buckets the list is shown in,
 * the subscription effects that fill or clear the lists, and the guard that
 * redirects a freshly signed-in user without chats to "/" at most once.
 *
 * Times are local wall-clock milliseconds since 1970-01-01 00:00 (the clock
 * reading `now` is a parameter), and the calendar is the proleptic Gregorian
 * one; time zones and daylight-saving shifts are outside the model.
 */
module Sidebar {
  import opened Common

  // ---------------------------------------------------------------------
  // Calendar
  // ---------------------------------------------------------------------

  const MsPerDay: int := 86400000

  /** The local day number of a time: days since 1970-01-01 (negative before). */
  function Day(t: int): int {
    t / MsPerDay
  }

  /** `getDay()`: 0 for Sunday through 6 for Saturday; 1970-01-01 was a Thursday. */
  function Weekday(day: int): (w: int)
    ensures 0 <= w < 7
  {
    (day + 4) % 7
  }

  /** The weekday advances by one each day and repeats every seven days, and
      day 3, Sunday, 1970-01-04, has index 0: so index 0 is always a Sunday. */
  lemma WeekdayCycle(day: int)
    ensures Weekday(day + 1) == (Weekday(day) + 1) % 7
    ensures Weekday(day + 7) == Weekday(day)
    ensures Weekday(3) == 0
    ensures Weekday(day) == 0 <==> (day - 3) % 7 == 0
  {
  }

  predicate IsLeap(year: int) {
    year % 4 == 0 && (year % 100 != 0 || year % 400 == 0)
  }

  function YearLength(year: int): int {
    if IsLeap(year) then 366 else 365
  }

  /** The day number of January 1 of `year`. */
  function YearStart(year: int): int
    decreases if year < 1970 then 1970 - year else year - 1970
  {
    if year == 1970 then 0
    else if year > 1970 then YearStart(year - 1) + YearLength(year - 1)
    else YearStart(year + 1) - YearLength(year)
  }

  /** The year holding the day `offset` days after January 1 of `year`, and the
      day's zero-based position in that year. */
  function LocateYear(year: int, offset: int): (int, int)
    decreases if offset < 0 then 366 - offset else offset
  {
    if offset < 0 then LocateYear(year - 1, offset + YearLength(year - 1))
    else if offset >= YearLength(year) then LocateYear(year + 1, offset - YearLength(year))
    else (year, offset)
  }

  /** Consecutive years follow each other without gap or overlap. */
  lemma YearStartStep(year: int)
    ensures YearStart(year + 1) == YearStart(year) + YearLength(year)
    decreases if year < 1970 then 1970 - year else year - 1970
  {
  }

  /** The located year holds the day, and the position is inside it. */
  lemma {:induction false} LocateYearSound(year: int, offset: int)
    ensures var (y, d) := LocateYear(year, offset);
      0 <= d < YearLength(y) && YearStart(y) + d == YearStart(year) + offset
    decreases if offset < 0 then 366 - offset else offset
  {
    if offset < 0 {
      YearStartStep(year - 1);
      LocateYearSound(year - 1, offset + YearLength(year - 1));
    } else if offset >= YearLength(year) {
      YearStartStep(year);
      LocateYearSound(year + 1, offset - YearLength(year));
    }
  }

  /** The day of the year on which zero-based `month` begins. */
  function MonthStart(month: int, leap: bool): int
    requires 0 <= month <= 12
  {
    [0, 31, 59, 90, 120, 151, 181, 212, 243, 273, 304, 334, 365][month]
    + if leap && month >= 2 then 1 else 0
  }

  /** The zero-based month holding day `doy` of a year. */
  function MonthOf(doy: int, leap: bool): (m: int)
    requires 0 <= doy < if leap then 366 else 365
    ensures 0 <= m < 12
    ensures MonthStart(m, leap) <= doy < MonthStart(m + 1, leap)
  {
    FindMonth(doy, leap, 11)
  }

  function FindMonth(doy: int, leap: bool, m: int): (r: int)
    requires 0 <= m < 12
    requires 0 <= doy < MonthStart(m + 1, leap)
    ensures 0 <= r <= m
    ensures MonthStart(r, leap) <= doy < MonthStart(r + 1, leap)
  {
    if MonthStart(m, leap) <= doy then m else FindMonth(doy, leap, m - 1)
  }

  /** The full year and zero-based day-of-year of a time. */
  function YearAndDay(t: int): (r: (int, int))
    ensures 0 <= r.1 < YearLength(r.0)
    ensures YearStart(r.0) + r.1 == Day(t)
  {
    LocateYearSound(1970, Day(t));
    LocateYear(1970, Day(t))
  }

  /** `getFullYear()`. */
  function FullYear(t: int): int {
    YearAndDay(t).0
  }

  /** `getMonth()`: 0 for January through 11 for December. */
  function Month(t: int): (m: int)
    ensures 0 <= m < 12
  {
    var (y, d) := YearAndDay(t);
    MonthOf(d, IsLeap(y))
  }

  /** Local midnight of the Sunday that starts the week holding `now`. */
  function WeekStart(now: int): int {
    (Day(now) - Weekday(Day(now))) * MsPerDay
  }

  /** `isDateInThisWeek`. */
  predicate InThisWeek(date: int, now: int) {
    date >= WeekStart(now)
  }

  /** `isDateInThisMonth`. */
  predicate InThisMonth(date: int, now: int) {
    Month(date) == Month(now) && FullYear(date) == FullYear(now)
  }

  /** The week starts at a midnight, on a Sunday, at most six days and some hours
      before `now`. */
  lemma WeekStartShape(now: int)
    ensures WeekStart(now) % MsPerDay == 0
    ensures Weekday(Day(WeekStart(now))) == 0
    ensures WeekStart(now) <= now < WeekStart(now) + 7 * MsPerDay
  {
    var d := Day(now);
    var w := Weekday(d);
    assert WeekStart(now) == (d - w) * MsPerDay;
    assert Day(WeekStart(now)) == d - w;
    assert (d - w + 4) % 7 == 0;
  }

  /** A date is in this week exactly when its day is no earlier than the Sunday
      on or before today. */
  lemma InThisWeekByDay(date: int, now: int)
    ensures InThisWeek(date, now) <==> Day(date) >= Day(now) - Weekday(Day(now))
  {
    var s := Day(now) - Weekday(Day(now));
    assert WeekStart(now) == s * MsPerDay;
    if Day(date) >= s {
      assert date >= Day(date) * MsPerDay;
    } else {
      assert date < (Day(date) + 1) * MsPerDay;
    }
  }

  /** Two times in the same month of the same year lie less than 31 days apart. */
  lemma SameMonthIsClose(date: int, now: int)
    requires InThisMonth(date, now)
    ensures -31 < Day(date) - Day(now) < 31
  {
    var (y, d1) := YearAndDay(date);
    var (y2, d2) := YearAndDay(now);
    var m := Month(date);
    assert MonthStart(m, IsLeap(y)) <= d1 < MonthStart(m + 1, IsLeap(y));
    assert MonthStart(m, IsLeap(y)) <= d2 < MonthStart(m + 1, IsLeap(y));
    assert MonthStart(m + 1, IsLeap(y)) - MonthStart(m, IsLeap(y)) <= 31;
  }

  // ---------------------------------------------------------------------
  // The three date buckets
  // ---------------------------------------------------------------------

  /** A chat document as listed: `createdAt` may be absent, and so may `archived`. */
  datatype Chat = Chat(id: string, title: string, createdAt: Option<int>, archived: Option<bool>)

  /** `chat.archived` is truthy. */
  predicate Archived(c: Chat) {
    c.archived == Some(true)
  }

  /** A chat the date buckets consider: timestamped and not archived. */
  predicate Listed(c: Chat) {
    c.createdAt.Some? && !Archived(c)
  }

  datatype Bucket = ThisWeek | ThisMonth | Older

  /** The three filter conditions, each as written. */
  predicate InBucket(c: Chat, b: Bucket, now: int) {
    match b
    case ThisWeek =>
      c.createdAt.Some? && InThisWeek(c.createdAt.value, now) && !Archived(c)
    case ThisMonth =>
      c.createdAt.Some? && !InThisWeek(c.createdAt.value, now)
      && InThisMonth(c.createdAt.value, now) && !Archived(c)
    case Older =>
      c.createdAt.Some? && !InThisWeek(c.createdAt.value, now)
      && !InThisMonth(c.createdAt.value, now) && !Archived(c)
  }

  /** The bucket a time belongs in: this week first, then this month, then older. */
  function BucketOf(t: int, now: int): Bucket {
    if InThisWeek(t, now) then ThisWeek
    else if InThisMonth(t, now) then ThisMonth
    else Older
  }

  /** A chat is in a bucket exactly when it is listed and the bucket is the one its
      time belongs in: so a listed chat is in exactly one bucket, "this week" wins
      over "this month", and an archived or untimed chat is in none. */
  lemma BucketIsUnique(c: Chat, b: Bucket, now: int)
    ensures InBucket(c, b, now) <==> Listed(c) && b == BucketOf(c.createdAt.value, now)
  {
  }

  /** `list.filter(keep)`. */
  function Filter(chats: seq<Chat>, keep: Chat -> bool): seq<Chat> {
    if chats == [] then []
    else (if keep(chats[0]) then [chats[0]] else []) + Filter(chats[1..], keep)
  }

  /** A bucket's filter callback. */
  function BucketTest(b: Bucket, now: int): Chat -> bool {
    c => InBucket(c, b, now)
  }

  /** The chats shown under one heading, in list order. */
  function Bucketed(chats: seq<Chat>, b: Bucket, now: int): seq<Chat> {
    Filter(chats, BucketTest(b, now))
  }

  /** The chats the buckets consider, in list order. */
  function ListedChats(chats: seq<Chat>): seq<Chat> {
    Filter(chats, Listed)
  }

  /** A filter keeps exactly the elements that pass. */
  lemma {:induction false} FilterMembers(chats: seq<Chat>, keep: Chat -> bool, c: Chat)
    ensures c in Filter(chats, keep) <==> c in chats && keep(c)
  {
    if chats != [] {
      FilterMembers(chats[1..], keep, c);
      assert chats == [chats[0]] + chats[1..];
    }
  }

  /** `a` is `b` with some elements dropped and the rest in order. */
  predicate IsSubsequence(a: seq<Chat>, b: seq<Chat>)
    decreases |b|
  {
    if a == [] then true
    else if b == [] then false
    else if a[0] == b[0] then IsSubsequence(a[1..], b[1..])
    else IsSubsequence(a, b[1..])
  }

  /** A filtered list keeps the original order. */
  lemma {:induction false} FilterIsSubsequence(chats: seq<Chat>, keep: Chat -> bool)
    ensures IsSubsequence(Filter(chats, keep), chats)
  {
    if chats != [] {
      FilterIsSubsequence(chats[1..], keep);
      var rest := Filter(chats[1..], keep);
      if keep(chats[0]) {
        assert Filter(chats, keep) == [chats[0]] + rest;
        assert ([chats[0]] + rest)[1..] == rest;
      } else {
        assert Filter(chats, keep) == rest;
        if rest != [] {
          SubsequenceSkip(rest, chats);
        }
      }
    }
  }

  /** Dropping one element of `b` up front keeps a subsequence of its tail one of `b`. */
  lemma SubsequenceSkip(a: seq<Chat>, b: seq<Chat>)
    requires b != [] && IsSubsequence(a, b[1..])
    ensures IsSubsequence(a, b)
    decreases |b|, 0
  {
    if a != [] && a[0] == b[0] {
      SubsequenceTail(a, b[1..]);
    }
  }

  /** A subsequence minus its head is still a subsequence. */
  lemma SubsequenceTail(a: seq<Chat>, b: seq<Chat>)
    requires a != [] && IsSubsequence(a, b)
    ensures IsSubsequence(a[1..], b)
    decreases |b|, 1
  {
    if a[0] == b[0] {
      SubsequenceSkip(a[1..], b);
    } else {
      SubsequenceTail(a, b[1..]);
      SubsequenceSkip(a[1..], b);
    }
  }

  /** Newest first: as the chat query orders them by `createdAt` descending. */
  predicate NewestFirst(chats: seq<Chat>) {
    forall i, j :: 0 <= i < j < |chats| && chats[i].createdAt.Some? && chats[j].createdAt.Some? ==>
      chats[i].createdAt.value >= chats[j].createdAt.value
  }

  /** Filtering a newest-first list gives a newest-first list. */
  lemma {:induction false} FilterKeepsNewestFirst(chats: seq<Chat>, keep: Chat -> bool)
    requires NewestFirst(chats)
    ensures NewestFirst(Filter(chats, keep))
  {
    if chats != [] {
      assert NewestFirst(chats[1..]) by {
        forall i, j | 0 <= i < j < |chats[1..]| && chats[1..][i].createdAt.Some? && chats[1..][j].createdAt.Some?
          ensures chats[1..][i].createdAt.value >= chats[1..][j].createdAt.value
        {
          assert chats[1..][i] == chats[i + 1] && chats[1..][j] == chats[j + 1];
        }
      }
      FilterKeepsNewestFirst(chats[1..], keep);
      var rest := Filter(chats[1..], keep);
      if keep(chats[0]) {
        var r := [chats[0]] + rest;
        assert Filter(chats, keep) == r;
        forall i, j | 0 <= i < j < |r| && r[i].createdAt.Some? && r[j].createdAt.Some?
          ensures r[i].createdAt.value >= r[j].createdAt.value
        {
          if i == 0 {
            assert r[j] in rest;
            FilterMembers(chats[1..], keep, r[j]);
            var k :| 0 <= k < |chats[1..]| && chats[1..][k] == r[j];
            assert chats[k + 1] == r[j];
          } else {
            assert r[i] == rest[i - 1] && r[j] == rest[j - 1];
          }
        }
      }
    }
  }

  /** Every listed chat lands in exactly one bucket: the three buckets together
      hold the listed chats, each as often as it is listed. */
  lemma {:induction false} BucketsPartition(chats: seq<Chat>, now: int)
    ensures multiset(Bucketed(chats, ThisWeek, now)) + multiset(Bucketed(chats, ThisMonth, now))
      + multiset(Bucketed(chats, Older, now)) == multiset(ListedChats(chats))
    ensures |Bucketed(chats, ThisWeek, now)| + |Bucketed(chats, ThisMonth, now)|
      + |Bucketed(chats, Older, now)| == |ListedChats(chats)|
  {
    if chats != [] {
      BucketsPartition(chats[1..], now);
      PartitionStep(chats, now);
    }
    var w := multiset(Bucketed(chats, ThisWeek, now));
    var m := multiset(Bucketed(chats, ThisMonth, now));
    var o := multiset(Bucketed(chats, Older, now));
    assert |w + m + o| == |w| + |m| + |o|;
  }

  /** The first chat's contribution: `[c]` when it passes, nothing otherwise. */
  function Head(c: Chat, keep: Chat -> bool): seq<Chat> {
    if keep(c) then [c] else []
  }

  /** The step of `BucketsPartition`: the first chat lands in the buckets as
      often as it is listed. */
  lemma PartitionStep(chats: seq<Chat>, now: int)
    requires chats != []
    requires multiset(Bucketed(chats[1..], ThisWeek, now)) + multiset(Bucketed(chats[1..], ThisMonth, now))
      + multiset(Bucketed(chats[1..], Older, now)) == multiset(ListedChats(chats[1..]))
    ensures multiset(Bucketed(chats, ThisWeek, now)) + multiset(Bucketed(chats, ThisMonth, now))
      + multiset(Bucketed(chats, Older, now)) == multiset(ListedChats(chats))
  {
    var c := chats[0];
    HeadPartition(c, now);
    assert Bucketed(chats, ThisWeek, now) == Head(c, BucketTest(ThisWeek, now)) + Bucketed(chats[1..], ThisWeek, now);
    assert Bucketed(chats, ThisMonth, now) == Head(c, BucketTest(ThisMonth, now)) + Bucketed(chats[1..], ThisMonth, now);
    assert Bucketed(chats, Older, now) == Head(c, BucketTest(Older, now)) + Bucketed(chats[1..], Older, now);
    assert ListedChats(chats) == Head(c, Listed) + ListedChats(chats[1..]);
  }

  /** A single chat lands in the buckets as often as it is listed: once or never. */
  lemma HeadPartition(c: Chat, now: int)
    ensures multiset(Head(c, BucketTest(ThisWeek, now))) + multiset(Head(c, BucketTest(ThisMonth, now)))
      + multiset(Head(c, BucketTest(Older, now))) == multiset(Head(c, Listed))
  {
    BucketIsUnique(c, ThisWeek, now);
    BucketIsUnique(c, ThisMonth, now);
    BucketIsUnique(c, Older, now);
    if Listed(c) {
      var k := BucketOf(c.createdAt.value, now);
      assert Head(c, BucketTest(k, now)) == [c];
    }
  }

  /** Each bucket keeps the list's order and so its newest-first ordering, and
      holds exactly the chats of the list that meet its condition. */
  lemma BucketShape(chats: seq<Chat>, b: Bucket, now: int)
    ensures IsSubsequence(Bucketed(chats, b, now), chats)
    ensures NewestFirst(chats) ==> NewestFirst(Bucketed(chats, b, now))
    ensures forall c :: c in Bucketed(chats, b, now) <==> c in chats && InBucket(c, b, now)
  {
    FilterIsSubsequence(chats, BucketTest(b, now));
    if NewestFirst(chats) {
      FilterKeepsNewestFirst(chats, BucketTest(b, now));
    }
    forall c {
      FilterMembers(chats, BucketTest(b, now), c);
    }
  }

  // ---------------------------------------------------------------------
  // The sidebar's state and effects
  // ---------------------------------------------------------------------

  function StartsWith(s: string, prefix: string): bool {
    |prefix| <= |s| && s[..|prefix|] == prefix
  }

  /** The redirect guard's condition. */
  predicate ShouldRedirect(user: Option<string>, prevUser: Option<string>, hasRedirected: bool,
                           chatsLoaded: bool, chatCount: nat, pathname: string) {
    && user.Some? && prevUser.None? && !hasRedirected && chatsLoaded
    && chatCount == 0 && pathname != "/" && !StartsWith(pathname, "/c/")
  }

  /** The sidebar of one mounted page. Each method is one effect body of the
      component; which effects React runs after which render is the caller's. */
  class SidebarSession {
    /** The signed-in user's uid. */
    var user: Option<string>
    var chats: seq<Chat>
    var archivedChats: seq<Chat>
    var hasRedirected: bool
    /** `prevUserRef.current`. */
    var prevUser: Option<string>
    var chatsLoaded: bool
    /** The uid whose chats the list listener follows, when there is one. */
    var chatsFeed: Option<string>
    /** The uid whose archived chats the archive listener follows. */
    var archivedFeed: Option<string>
    /** Every `router.push` so far. */
    var navigations: seq<string>

    /** The redirect has happened at most once, and `hasRedirected` records whether. */
    ghost predicate Valid()
      reads this
    {
      navigations == if hasRedirected then ["/"] else []
    }

    constructor (user: Option<string>)
      ensures Valid()
      ensures this.user == user && chats == [] && archivedChats == [] && !hasRedirected
      ensures prevUser == None && !chatsLoaded && chatsFeed == None && archivedFeed == None
    {
      this.user := user;
      chats := [];
      archivedChats := [];
      hasRedirected := false;
      prevUser := None;
      chatsLoaded := false;
      chatsFeed := None;
      archivedFeed := None;
      navigations := [];
    }

    /** A sign-in or sign-out from the auth provider. */
    method SetUser(u: Option<string>)
      requires Valid()
      modifies this`user
      ensures Valid()
      ensures user == u
    {
      user := u;
    }

    /** The effect keyed on the user: a signed-in user's list counts as not loaded. */
    method ResetLoaded()
      requires Valid()
      modifies this`chatsLoaded
      ensures Valid()
      ensures chatsLoaded == if user.Some? then false else old(chatsLoaded)
    {
      if user.Some? {
        chatsLoaded := false;
      }
    }

    /** The effect keyed on the list and the user: with a user, the list counts as loaded. */
    method MarkLoaded()
      requires Valid()
      modifies this`chatsLoaded
      ensures Valid()
      ensures chatsLoaded == if user.Some? then true else old(chatsLoaded)
    {
      if user.Some? {
        chatsLoaded := true;
      }
    }

    /** The chat-list subscription: follow the user's chats, or clear the list
        when signed out; the previous listener is unsubscribed either way. */
    method SubscribeChats()
      requires Valid()
      modifies this`chats, this`chatsFeed
      ensures Valid()
      ensures chatsFeed == user
      ensures chats == if user.None? then [] else old(chats)
    {
      chatsFeed := user;
      if user.None? {
        chats := [];
      }
    }

    /** A snapshot of the user's chats replaces the list, while it is followed. */
    method OnChatsSnapshot(docs: seq<Chat>)
      requires Valid()
      modifies this`chats
      ensures Valid()
      ensures chats == if chatsFeed.Some? then docs else old(chats)
    {
      if chatsFeed.Some? {
        chats := docs;
      }
    }

    /** The archive subscription, like the chat-list one. */
    method SubscribeArchived()
      requires Valid()
      modifies this`archivedChats, this`archivedFeed
      ensures Valid()
      ensures archivedFeed == user
      ensures archivedChats == if user.None? then [] else old(archivedChats)
    {
      archivedFeed := user;
      if user.None? {
        archivedChats := [];
      }
    }

    /** A snapshot of the user's archived chats replaces that list, while it is followed. */
    method OnArchivedSnapshot(docs: seq<Chat>)
      requires Valid()
      modifies this`archivedChats
      ensures Valid()
      ensures archivedChats == if archivedFeed.Some? then docs else old(archivedChats)
    {
      if archivedFeed.Some? {
        archivedChats := docs;
      }
    }

    /** The redirect guard: push "/" when a user has just appeared, the empty chat
        list is loaded, the redirect has not happened, and the page is neither
        the home page nor a chat; then remember the current user. */
    method EvaluateRedirect(pathname: string) returns (fired: bool)
      requires Valid()
      modifies this`hasRedirected, this`navigations, this`prevUser
      ensures Valid()
      ensures fired == ShouldRedirect(user, old(prevUser), old(hasRedirected), chatsLoaded, |chats|, pathname)
      ensures fired ==> old(prevUser).None? && !old(hasRedirected) && hasRedirected && navigations == ["/"]
      ensures !fired ==> hasRedirected == old(hasRedirected) && navigations == old(navigations)
      ensures old(hasRedirected) ==> !fired
      ensures prevUser == user
    {
      fired := ShouldRedirect(user, prevUser, hasRedirected, chatsLoaded, |chats|, pathname);
      if fired {
        hasRedirected := true;
        navigations := navigations + ["/"];
      }
      prevUser := user;
    }
  }

  /** The redirect never fires on the home page, on a chat page, with chats in
      the list, or for a user the guard has already seen. */
  lemma RedirectExclusions(user: Option<string>, prevUser: Option<string>, hasRedirected: bool,
                           chatsLoaded: bool, chatCount: nat, pathname: string, chatId: string)
    ensures !ShouldRedirect(user, prevUser, hasRedirected, chatsLoaded, chatCount, "/")
    ensures !ShouldRedirect(user, prevUser, hasRedirected, chatsLoaded, chatCount, "/c/" + chatId)
    ensures chatCount > 0 ==> !ShouldRedirect(user, prevUser, hasRedirected, chatsLoaded, chatCount, pathname)
    ensures !ShouldRedirect(user, user, hasRedirected, chatsLoaded, chatCount, pathname)
  {
    assert ("/c/" + chatId)[..3] == "/c/";
  }
}
