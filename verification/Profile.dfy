/** The profile page (`Usuarios` in src/app/components/usuarios/usuarios.ts):
    what it shows for the session user (name, initials, role) and the order
    counters, and the tab switch. */
module Profile {
  import opened Basics
  import opened Strings
  import opened AuthSession

  /** One entry of the fixed `recentOrders` list. */
  datatype RecentOrder = RecentOrder(title: string, date: string, status: string, price: int)

  const RecentOrders: seq<RecentOrder> := [
    RecentOrder("Pastel de Chocolate", "15 Nov 2024", "Entregado", 35),
    RecentOrder("Cupcakes Gourmet", "8 Nov 2024", "Entregado", 18),
    RecentOrder("Pastel Personalizado", "2 Nov 2024", "Entregado", 65)]

  const DefaultTab: string := "dashboard"
  const AdminRole: string := "admin"

  /** `user.first_name || user.email`. */
  function DisplayName(u: SessionUser): (n: string)
    ensures n == "" <==> u.first_name == "" && u.email == ""
    ensures u.first_name != "" ==> n == u.first_name
  {
    if u.first_name != "" then u.first_name else u.email
  }

  /** `p[0]` of a segment, as `join('')` renders it: its first character, and
      nothing for an empty segment. */
  function FirstChar(s: string): (r: string)
    ensures s == "" <==> r == ""
    ensures s != "" ==> r == [s[0]]
  {
    if s == "" then "" else [s[0]]
  }

  /** `parts.map(p => p[0]).join('')`. */
  function Heads(parts: seq<string>): (r: string)
    ensures |r| <= |parts|
    decreases |parts|
  {
    if parts == [] then "" else FirstChar(parts[0]) + Heads(parts[1..])
  }

  /** The initials of a display name: the upper-cased first characters of its
      first two space-separated segments. */
  function Initials(name: string): (r: string)
    ensures |r| <= 2
    ensures name != "" && name[0] != ' ' ==> r != "" && r[0] == UpperChar(name[0])
  {
    var parts := Split(name, ' ');
    var firstTwo := parts[..if |parts| < 2 then |parts| else 2];
    assert firstTwo[0] == BeforeFirst(name, ' ');
    Upper(Heads(firstTwo))
  }

  /** The text before the first separator of `first + [sep] + rest`, when
      `first` holds no separator, is `first`. */
  lemma BeforeFirstOfSeparated(first: string, sep: char, rest: string)
    requires sep !in first
    ensures BeforeFirst(first + [sep] + rest, sep) == first
  {
    var s := first + [sep] + rest;
    var r := BeforeFirst(s, sep);
    assert s[|first|] == sep;
    assert |r| == |first|;
    assert r == s[..|first|] == first;
  }

  /** Splitting at a separator that follows a first word yields that word, then
      the split of the rest. */
  lemma SplitSeparated(first: string, rest: string)
    requires ' ' !in first
    ensures Split(first + " " + rest, ' ') == [first] + Split(rest, ' ')
  {
    var s := first + " " + rest;
    BeforeFirstOfSeparated(first, ' ', rest);
    assert s[|first| + 1..] == rest;
  }

  /** The initials of a name whose first two segments are `a` and `b`. */
  lemma InitialsOfSegments(name: string, a: string, b: string, more: seq<string>)
    requires Split(name, ' ') == [a, b] + more
    ensures Initials(name) == Upper(FirstChar(a) + FirstChar(b))
  {
    var parts := Split(name, ' ');
    assert parts[..2] == [a, b];
    assert Heads([a, b]) == FirstChar(a) + FirstChar(b) + Heads([]);
  }

  /** A name without a space is one segment: a single initial. */
  lemma InitialsOfOneWord(name: string)
    requires name != "" && ' ' !in name
    ensures Initials(name) == [UpperChar(name[0])]
  {
    assert Split(name, ' ') == [name];
    assert Split(name, ' ')[..1] == [name];
    assert Heads([name]) == FirstChar(name) + Heads([]);
  }

  /** A name of a word followed by more text: one initial for each of the first two words. */
  lemma InitialsOfTwoWords(first: string, rest: string)
    requires first != "" && ' ' !in first
    requires rest != "" && rest[0] != ' '
    ensures Initials(first + " " + rest) == [UpperChar(first[0]), UpperChar(rest[0])]
  {
    SplitSeparated(first, rest);
    var tail := Split(rest, ' ');
    var second := BeforeFirst(rest, ' ');
    assert second != "" && second[0] == rest[0];
    assert [first] + tail == [first, second] + tail[1..];
    InitialsOfSegments(first + " " + rest, first, second, tail[1..]);
  }

  /** A leading space splits off an empty first segment. */
  lemma SplitLeadingSpace(rest: string)
    ensures Split([' '] + rest, ' ') == [""] + Split(rest, ' ')
  {
    var tail := [' '] + rest;
    assert BeforeFirst(tail, ' ') == [];
    assert tail[1..] == rest;
  }

  /** Splitting at a doubled space yields an empty segment between the two sides. */
  lemma SplitDoubleSpace(first: string, rest: string)
    requires ' ' !in first
    ensures Split(first + "  " + rest, ' ') == [first, ""] + Split(rest, ' ')
  {
    var tail := [' '] + rest;
    SplitLeadingSpace(rest);
    SplitSeparated(first, tail);
    assert first + "  " + rest == first + " " + tail;
  }

  /** A doubled space makes the second segment empty, so it gives no initial. */
  lemma InitialsWithEmptySegment(first: string, rest: string)
    requires first != "" && ' ' !in first
    ensures Initials(first + "  " + rest) == [UpperChar(first[0])]
  {
    SplitDoubleSpace(first, rest);
    InitialsOfSegments(first + "  " + rest, first, "", Split(rest, ' '));
    assert FirstChar(first) + FirstChar("") == [first[0]];
  }

  /** `recentOrders.reduce((total, order) => total + order.price, 0)`. */
  function SpentOf(orders: seq<RecentOrder>): (s: int)
    ensures (forall i :: 0 <= i < |orders| ==> orders[i].price >= 0) ==> s >= 0
    decreases |orders|
  {
    if orders == [] then 0 else SpentOf(orders[..|orders| - 1]) + orders[|orders| - 1].price
  }

  /** The counters a customer sees: three orders and 118 spent. */
  lemma CustomerCounters()
    ensures |RecentOrders| == 3 && SpentOf(RecentOrders) == 118
  {
    var o := RecentOrders;
    assert o[..|o| - 1] == o[..2];
    assert o[..2][..1] == o[..1];
    assert o[..1][..0] == [];
    assert SpentOf(o[..1]) == 35;
    assert SpentOf(o[..2]) == 53;
  }

  class Usuarios {
    var currentTab: string
    var isAdmin: bool
    var userEmail: string
    var name: string
    var initials: string
    var orders: int
    var spent: int

    constructor ()
      ensures currentTab == DefaultTab && !isAdmin && userEmail == ""
      ensures name == "" && initials == "" && orders == 0 && spent == 0
    {
      currentTab := DefaultTab;
      isAdmin := false;
      userEmail := "";
      name := "";
      initials := "";
      orders := 0;
      spent := 0;
    }

    /** `loadUserData`: an administrator has no personal orders; a customer
        sees the count and the sum of the recent orders. */
    method LoadUserData()
      modifies this`orders, this`spent
      ensures isAdmin ==> orders == 0 && spent == 0
      ensures !isAdmin ==> orders == |RecentOrders| && spent == SpentOf(RecentOrders)
    {
      if isAdmin {
        orders := 0;
        spent := 0;
      } else {
        orders := |RecentOrders|;
        spent := SpentOf(RecentOrders);
      }
    }

    /** The subscription to the session signal. Initials are recomputed only
        for a non-empty name; otherwise they keep their previous value. */
    method OnSessionChange(u: Option<SessionUser>)
      modifies this`userEmail, this`name, this`initials, this`isAdmin, this`orders, this`spent
      ensures u.None? ==>
        userEmail == "" && name == "" && initials == "" && !isAdmin && orders == 0 && spent == 0
      ensures u.Some? ==>
        userEmail == u.value.email && name == DisplayName(u.value)
        && initials == (if name != "" then Initials(name) else old(initials))
        && (isAdmin <==> u.value.role == AdminRole)
      ensures u.Some? && u.value.role == AdminRole ==> orders == 0 && spent == 0
      ensures u.Some? && u.value.role != AdminRole ==> orders == 3 && spent == 118
    {
      match u {
        case Some(user) =>
          userEmail := user.email;
          name := DisplayName(user);
          if name != "" {
            initials := Initials(name);
          }
          isAdmin := user.role == AdminRole;
          LoadUserData();
          CustomerCounters();
        case None =>
          userEmail := "";
          name := "";
          initials := "";
          isAdmin := false;
          orders := 0;
          spent := 0;
      }
    }

    /** `showTab`. */
    method ShowTab(tab: string)
      modifies this`currentTab
      ensures currentTab == tab
    {
      currentTab := tab;
    }
  }
}
