/**
 * The CalDAV backend of the Deck app: it shows every board as a calendar and every card as a
 * calendar object holding one VTODO. Only the read path is implemented; every mutation and
 * the sync-token query fail with NotImplemented.
 *
 * The host services are inputs here: the boards that `BoardService::findAll` returns for the
 * current user and their groups, and the stacks (each with its cards) that
 * `StackService::findAll($calendarId)` returns. `md5` and the VObject serialiser are
 * uninterpreted functions given to the backend when it is built.
 */
module CalDav {
  import opened Wrappers
  import opened PhpStrings
  import opened SabreUri
  import opened Sequences

  /** The VTODO component that `Card::getVtodo()` builds; its content is not interpreted here. */
  type Todo = string

  datatype Board = Board(id: int, title: string, color: string, owner: string)

  datatype Card = Card(id: int, lastModified: int, todo: Todo)

  datatype Stack = Stack(id: int, cards: seq<Card>)

  /** The calendar array built from a board. */
  datatype Calendar = Calendar(
    id: int,
    displayName: string,            // {DAV:}displayname
    uri: string,
    principalUri: string,           // principaluri
    ownerPrincipal: string,         // {http://owncloud.org/ns}owner-principal
    supportedComponents: seq<string>, // {urn:ietf:params:xml:ns:caldav}supported-calendar-component-set
    color: string)                  // {http://apple.com/ns/ical/}calendar-color

  /** The calendar-object array built from a card; `calendarData` is the optional 'calendardata' key. */
  datatype CalendarObject = CalendarObject(
    id: int,
    uri: string,
    lastModified: int,
    etag: string,
    calendarId: int,
    component: string,
    size: nat,
    calendarData: Option<string>)

  datatype AclEntry = AclEntry(privilege: string, principal: string, isProtected: bool)

  /** A share as the sharing interface describes one; this backend never returns any. */
  datatype Share = Share(href: string, commonName: string, status: int, readOnly: bool)

  /** The result of an incremental change query. */
  datatype Changes = Changes(syncToken: string, added: seq<string>, modified: seq<string>, deleted: seq<string>)

  /** `Sabre\DAV\Exception\NotImplemented`, the only error the backend throws. */
  datatype DavError = NotImplemented

  /** The synthetic file name of a card: its id followed by ".ics". */
  function ObjectUri(cardId: int): string {
    IntToString(cardId) + ".ics"
  }

  /** A card's file name is a single path segment ending in ".ics". */
  lemma ObjectUriShape(cardId: int)
    ensures |ObjectUri(cardId)| > 4 && ObjectUri(cardId)[|ObjectUri(cardId)| - 4..] == ".ics"
    ensures '/' !in ObjectUri(cardId)
  {
    var s := IntToString(cardId);
    IntToStringShape(cardId);
    assert ObjectUri(cardId)[|s|..] == ".ics";
    forall i | 0 <= i < |ObjectUri(cardId)| ensures ObjectUri(cardId)[i] != '/' {
      if i < |s| { assert ObjectUri(cardId)[i] == s[i]; }
    }
  }

  /** Two cards share a file name only when they share an id. */
  lemma ObjectUriInjective(a: int, b: int)
    requires ObjectUri(a) == ObjectUri(b)
    ensures a == b
  {
    var sa, sb := IntToString(a), IntToString(b);
    assert |sa| == |sb|;
    assert sa == ObjectUri(a)[..|sa|];
    assert sb == ObjectUri(b)[..|sb|];
    IntToStringInjective(a, b);
  }

  /** The cards of all stacks, in stack order and then card order (the two nested foreach loops). */
  function Flatten(stacks: seq<Stack>): seq<Card> {
    if stacks == [] then [] else Flatten(stacks[..|stacks| - 1]) + stacks[|stacks| - 1].cards
  }

  /** The number of cards over all stacks. */
  function TotalCards(stacks: seq<Stack>): nat {
    if stacks == [] then 0 else TotalCards(stacks[..|stacks| - 1]) + |stacks[|stacks| - 1].cards|
  }

  lemma {:induction false} FlattenLength(stacks: seq<Stack>)
    ensures |Flatten(stacks)| == TotalCards(stacks)
    decreases |stacks|
  {
    if stacks != [] {
      FlattenLength(stacks[..|stacks| - 1]);
    }
  }

  /** The cards of the first `i` stacks come first, in the same order. */
  lemma {:induction false} FlattenPrefix(stacks: seq<Stack>, i: nat)
    requires i <= |stacks|
    ensures Flatten(stacks[..i]) <= Flatten(stacks)
    decreases |stacks| - i
  {
    if i < |stacks| {
      FlattenPrefix(stacks, i + 1);
      assert stacks[..i + 1][..i] == stacks[..i];
    } else {
      assert stacks[..i] == stacks;
    }
  }

  lemma FlattenStep(stacks: seq<Stack>, i: nat)
    requires i < |stacks|
    ensures Flatten(stacks[..i + 1]) == Flatten(stacks[..i]) + stacks[i].cards
  {
    assert stacks[..i + 1][..i] == stacks[..i];
  }

  /** The cards of the stacks before `i`, then those of stack `i`, begin the traversal. */
  lemma FlattenThroughStack(stacks: seq<Stack>, i: nat)
    requires i < |stacks|
    ensures Flatten(stacks[..i]) + stacks[i].cards <= Flatten(stacks)
  {
    FlattenStep(stacks, i);
    FlattenPrefix(stacks, i + 1);
  }

  /** Card `j` of stack `i` sits right after the cards of the stacks before it. */
  lemma FlattenAt(stacks: seq<Stack>, i: nat, j: nat)
    requires i < |stacks| && j < |stacks[i].cards|
    ensures TotalCards(stacks[..i]) + j < |Flatten(stacks)|
    ensures Flatten(stacks)[TotalCards(stacks[..i]) + j] == stacks[i].cards[j]
  {
    FlattenPrefix(stacks, i + 1);
    FlattenStep(stacks, i);
    FlattenLength(stacks[..i]);
  }

  /** A card's file name, as a value to map over the cards. */
  function CardUri(card: Card): string {
    ObjectUri(card.id)
  }

  lemma SnocPrefix(done: seq<Card>, cards: seq<Card>, j: nat)
    requires j < |cards|
    ensures done + cards[..j] + [cards[j]] == done + cards[..j + 1]
  {
    assert cards[..j + 1] == cards[..j] + [cards[j]];
  }

  /**
   * The traversal that passed every card before card `j` of stack `i` without meeting the
   * file name `uri`, and meets it there, has found the first card named `uri`.
   */
  lemma FoundFirst<K>(name: Card -> K, stacks: seq<Stack>, i: nat, j: nat, uri: K)
    requires i < |stacks| && j < |stacks[i].cards|
    requires uri !in MapSeq(name, Flatten(stacks[..i]) + stacks[i].cards[..j])
    requires name(stacks[i].cards[j]) == uri
    ensures FindFirst(name, Flatten(stacks), uri) == Some(stacks[i].cards[j])
  {
    FlattenThroughStack(stacks, i);
    FindFirstAfter(name, Flatten(stacks), Flatten(stacks[..i]), stacks[i].cards, j, uri);
  }

  /** A key absent from the cards of the stacks before `i` and from those of stack `i` is absent through stack `i`. */
  lemma AbsentThroughStack<K>(name: Card -> K, stacks: seq<Stack>, i: nat, key: K)
    requires i < |stacks| && key !in MapSeq(name, Flatten(stacks[..i]) + stacks[i].cards)
    ensures key !in MapSeq(name, Flatten(stacks[..i + 1]))
  {
    FlattenStep(stacks, i);
  }

  /** When the ids are pairwise distinct, looking up a card's file name finds that card. */
  lemma FirstMatchOfDistinctIds(cards: seq<Card>, k: nat)
    requires k < |cards|
    requires forall a, b :: 0 <= a < b < |cards| ==> cards[a].id != cards[b].id
    ensures FirstIndex(MapSeq(CardUri, cards), ObjectUri(cards[k].id)) == Some(k)
  {
    var uris := MapSeq(CardUri, cards);
    var uri := ObjectUri(cards[k].id);
    forall j | 0 <= j < k ensures uris[..k][j] != uri {
      if uris[j] == uri {
        ObjectUriInjective(cards[j].id, cards[k].id);
      }
    }
    FirstIndexAt(uris, uri, k);
  }

  lemma SplitNameOfUsersDir()
    ensures SplitName("principals/users/") == Some("users")
  {
    SplitNameOfJoin("principals/", "users");
    assert "principals/users/" == "principals/" + "users" + "/";
  }

  /** The outcome of the stubbed operations: always NotImplemented. */
  function Unsupported<R>(): (r: Result<R, DavError>)
    ensures r == Failure(NotImplemented)
  {
    Failure(NotImplemented)
  }

  class CalDavBackend {
    /** What `$this->principalBackend->getPrincipalPrefix()` answers. */
    const principalPrefix: string
    /** PHP's `md5`, uninterpreted. */
    const md5: string -> string
    /**
     * `(new VObject\Component\VCalendar(['VTODO' => $todo]))->serialize()`, uninterpreted. Its
     * result is a byte string, one `char` per byte, so its length is PHP's `strlen`.
     */
    const serializeTodo: Todo -> string
    var legacyEndpoint: bool

    constructor (principalPrefix: string, md5: string -> string, serializeTodo: Todo -> string, legacyEndpoint: bool := false)
      ensures this.principalPrefix == principalPrefix && this.md5 == md5 && this.serializeTodo == serializeTodo
      ensures this.legacyEndpoint == legacyEndpoint
    {
      this.principalPrefix := principalPrefix;
      this.md5 := md5;
      this.serializeTodo := serializeTodo;
      this.legacyEndpoint := legacyEndpoint;
    }

    /**
     * Rewrites a principal URI into the v2 (`principals/users/<name>`) or v1
     * (`principals/<name>`) form, but only when the principal backend's prefix is
     * `principals`; a `null` name from split reads as the empty string.
     */
    function ConvertPrincipal(principalUri: string, toV2: bool): string {
      if principalPrefix == "principals" then
        var name := SplitName(principalUri).GetOr("");
        if toV2 then "principals/users/" + name else "principals/" + name
      else principalUri
    }

    /**
     * Under the `principals` prefix the v2 form is `principals/users/` and the v1 form
     * `principals/`, each followed by a single segment; under any other prefix the input is kept.
     */
    lemma ConvertPrincipalShape(principalUri: string, toV2: bool)
      ensures principalPrefix != "principals" ==> ConvertPrincipal(principalUri, toV2) == principalUri
      ensures principalPrefix == "principals" && toV2 ==>
        var r := ConvertPrincipal(principalUri, toV2);
        |r| >= 17 && r[..17] == "principals/users/" && '/' !in r[17..]
      ensures principalPrefix == "principals" && !toV2 ==>
        var r := ConvertPrincipal(principalUri, toV2);
        |r| >= 11 && r[..11] == "principals/" && '/' !in r[11..]
    {
      var name := SplitName(principalUri).GetOr("");
      assert ("principals/users/" + name)[17..] == name;
      assert ("principals/" + name)[11..] == name;
    }

    /** Both forms carry the same name: the last segment of the input. */
    lemma ConvertPrincipalKeepsName(dir: string, name: string)
      requires principalPrefix == "principals"
      requires name != [] && '/' !in name
      ensures ConvertPrincipal(dir + "/" + name, true) == "principals/users/" + name
      ensures ConvertPrincipal(dir + "/" + name, false) == "principals/" + name
    {
      SplitNameOfJoin(dir + "/", name);
    }

    /** Converting to the v2 form twice is converting once, when the input has a name. */
    lemma ConvertPrincipalIdempotent(principalUri: string)
      requires SplitName(principalUri).Some?
      ensures ConvertPrincipal(ConvertPrincipal(principalUri, true), true) == ConvertPrincipal(principalUri, true)
    {
      if principalPrefix == "principals" {
        SplitNameOfJoin("principals/users/", SplitName(principalUri).value);
      }
    }

    /**
     * Without a name (split gives null), the v2 form is `principals/users/`, and converting
     * that again takes `users` as the name: the conversion is then not idempotent.
     */
    lemma ConvertPrincipalWithoutName(principalUri: string)
      requires principalPrefix == "principals"
      requires SplitName(principalUri).None?
      ensures ConvertPrincipal(principalUri, true) == "principals/users/"
      ensures ConvertPrincipal(ConvertPrincipal(principalUri, true), true) == "principals/users/users"
    {
      assert ConvertPrincipal(principalUri, true) == "principals/users/" + "";
      SplitNameOfUsersDir();
    }

    /** The calendar a board is shown as; what `boardToCalendar` returns. */
    function CalendarOf(board: Board): Calendar {
      var owner := ConvertPrincipal("principals/users/" + board.owner, true);
      Calendar(board.id, board.title, IntToString(board.id), owner, owner, ["VEVENT", "VTODO"], "#" + board.color)
    }

    /** The calendar's uri names the board, its colour is a CSS hex colour, and both owner tags agree. */
    lemma CalendarOfFields(board: Board)
      ensures CalendarOf(board).uri == IntToString(board.id) && CalendarOf(board).id == board.id
      ensures CalendarOf(board).displayName == board.title
      ensures CalendarOf(board).color == "#" + board.color
      ensures CalendarOf(board).principalUri == CalendarOf(board).ownerPrincipal
      ensures CalendarOf(board).supportedComponents == ["VEVENT", "VTODO"]
    {
    }

    /** Distinct boards have distinct calendar uris. */
    lemma CalendarUriInjective(a: Board, b: Board)
      requires CalendarOf(a).uri == CalendarOf(b).uri
      ensures a.id == b.id
    {
      IntToStringInjective(a.id, b.id);
    }

    /** For an owner id without '/', the owner principal is `principals/users/<owner>` whatever the prefix. */
    lemma CalendarOwnerPrincipal(board: Board)
      requires board.owner != [] && '/' !in board.owner
      ensures CalendarOf(board).principalUri == "principals/users/" + board.owner
    {
      if principalPrefix == "principals" {
        SplitNameOfJoin("principals/users/", board.owner);
      }
    }

    /** `boardToCalendar`: it sets `legacyEndpoint` to false before converting the owner, so the v2 form is used. */
    method BoardToCalendar(board: Board, principalUri: string) returns (calendar: Calendar)
      modifies this
      ensures !legacyEndpoint
      ensures calendar == CalendarOf(board)
    {
      var ownerPrincipalUrl := "principals/users/" + board.owner;
      legacyEndpoint := false;
      calendar := Calendar(
        board.id,
        board.title,
        IntToString(board.id),
        ConvertPrincipal(ownerPrincipalUrl, !legacyEndpoint),
        ConvertPrincipal(ownerPrincipalUrl, !legacyEndpoint),
        ["VEVENT", "VTODO"],
        "#" + board.color);
    }

    /** `getCalendarsForUser`, over the boards the board service found for the current user and groups. */
    method GetCalendarsForUser(principalUri: string, boards: seq<Board>) returns (calendars: seq<Calendar>)
      modifies this
      ensures |calendars| == |boards|
      ensures forall k :: 0 <= k < |boards| ==> calendars[k] == CalendarOf(boards[k])
      ensures legacyEndpoint == (old(legacyEndpoint) && boards == [])
    {
      calendars := [];
      for i := 0 to |boards|
        invariant |calendars| == i
        invariant forall k :: 0 <= k < i ==> calendars[k] == CalendarOf(boards[k])
        invariant legacyEndpoint == (old(legacyEndpoint) && i == 0)
      {
        var calendar := BoardToCalendar(boards[i], principalUri);
        calendars := calendars + [calendar];
      }
    }

    /** The share ACL: the input with one read grant appended, for principal id 1. */
    function ApplyShareAcl(resourceId: int, acl: seq<AclEntry>): (r: seq<AclEntry>)
      reads this
      ensures |r| == |acl| + 1 && r[..|acl|] == acl
      ensures r[|acl|].privilege == "{DAV:}read" && r[|acl|].isProtected
      ensures r[|acl|].principal == ConvertPrincipal("principals/users/1", !legacyEndpoint)
    {
      acl + [AclEntry("{DAV:}read", ConvertPrincipal("principals/users/1", !legacyEndpoint), true)]
    }

    /** Under the `principals` prefix the granted principal is v2 unless the endpoint is legacy. */
    lemma ShareAclPrincipal(resourceId: int, acl: seq<AclEntry>)
      requires principalPrefix == "principals"
      ensures ApplyShareAcl(resourceId, acl)[|acl|].principal ==
        if legacyEndpoint then "principals/1" else "principals/users/1"
    {
      SplitNameOfJoin("principals/users/", "1");
      assert "principals/users/1" == "principals/users/" + "1";
    }

    function GetShares(resourceId: int): (shares: seq<Share>)
      ensures shares == []
    {
      []
    }

    /** An empty array: the calendar is never published. */
    function GetPublishStatus(resourceId: int): (status: seq<string>)
      ensures status == []
    {
      []
    }

    /** The full record of a card, with the serialised calendar and its length in bytes. */
    function ObjectOf(calendarId: int, card: Card): (o: CalendarObject)
      ensures o.calendarData == Some(serializeTodo(card.todo)) && o.size == |o.calendarData.value|
      ensures o.id == card.id && o.uri == ObjectUri(card.id) && o.calendarId == calendarId
    {
      var data := serializeTodo(card.todo);
      CalendarObject(card.id, ObjectUri(card.id), card.lastModified,
        "\"" + md5(IntToString(card.lastModified)) + "\"", calendarId, "vtodo", |data|, Some(data))
    }

    /** The listed record of a card: the full record without 'calendardata'. */
    function EntryOf(calendarId: int, card: Card): (o: CalendarObject)
      ensures o == ObjectOf(calendarId, card).(calendarData := None)
    {
      CalendarObject(card.id, ObjectUri(card.id), card.lastModified,
        "\"" + md5(IntToString(card.lastModified)) + "\"", calendarId, "vtodo",
        |serializeTodo(card.todo)|, None)
    }

    /** The etag is the quoted md5 of the card's last-modified time, so it depends on nothing else. */
    lemma EtagOfLastModified(calendarId: int, a: Card, b: Card)
      requires a.lastModified == b.lastModified
      ensures EntryOf(calendarId, a).etag == EntryOf(calendarId, b).etag
      ensures EntryOf(calendarId, a).etag == "\"" + md5(IntToString(a.lastModified)) + "\""
    {
    }

    /** The listed record of a card, as a value to map over the cards. */
    function EntryFn(calendarId: int): Card -> CalendarObject {
      card => EntryOf(calendarId, card)
    }

    /** What `getCalendarObjects` lists for the given stacks. */
    function Listing(calendarId: int, stacks: seq<Stack>): seq<CalendarObject> {
      MapSeq(EntryFn(calendarId), Flatten(stacks))
    }

    /**
     * One record per card, in stack order then card order: card `j` of stack `i` is listed
     * after every card of the earlier stacks, under its file name, as a vtodo of this calendar.
     */
    lemma ListingOrder(calendarId: int, stacks: seq<Stack>, i: nat, j: nat)
      requires i < |stacks| && j < |stacks[i].cards|
      ensures |Listing(calendarId, stacks)| == TotalCards(stacks)
      ensures TotalCards(stacks[..i]) + j < TotalCards(stacks)
      ensures Listing(calendarId, stacks)[TotalCards(stacks[..i]) + j] == EntryOf(calendarId, stacks[i].cards[j])
    {
      FlattenLength(stacks);
      FlattenAt(stacks, i, j);
    }

    /**
     * Every listed record is a vtodo of this calendar named after its card, with the quoted md5
     * of the card's last-modified time as etag and the serialised length as size, and without
     * calendar data.
     */
    lemma ListingFields(calendarId: int, stacks: seq<Stack>, k: nat)
      requires k < TotalCards(stacks)
      ensures k < |Listing(calendarId, stacks)| && k < |Flatten(stacks)|
      ensures Listing(calendarId, stacks)[k].id == Flatten(stacks)[k].id
      ensures Listing(calendarId, stacks)[k].uri == ObjectUri(Flatten(stacks)[k].id)
      ensures Listing(calendarId, stacks)[k].lastModified == Flatten(stacks)[k].lastModified
      ensures Listing(calendarId, stacks)[k].etag == "\"" + md5(IntToString(Flatten(stacks)[k].lastModified)) + "\""
      ensures Listing(calendarId, stacks)[k].size == |serializeTodo(Flatten(stacks)[k].todo)|
      ensures Listing(calendarId, stacks)[k].component == "vtodo"
      ensures Listing(calendarId, stacks)[k].calendarId == calendarId
      ensures Listing(calendarId, stacks)[k].calendarData == None
    {
      FlattenLength(stacks);
    }

    /** `getCalendarObjects`, over the stacks the stack service found for the calendar (board). */
    method GetCalendarObjects(calendarId: int, stacks: seq<Stack>) returns (result: seq<CalendarObject>)
      ensures result == Listing(calendarId, stacks)
    {
      result := [];
      for i := 0 to |stacks|
        invariant result == MapSeq(EntryFn(calendarId), Flatten(stacks[..i]))
      {
        var cards := stacks[i].cards;
        ghost var done := Flatten(stacks[..i]);
        assert done + cards[..0] == done;
        for j := 0 to |cards|
          invariant result == MapSeq(EntryFn(calendarId), done + cards[..j])
        {
          MapSeqAppend(EntryFn(calendarId), done + cards[..j], [cards[j]]);
          SnocPrefix(done, cards, j);
          result := result + [EntryOf(calendarId, cards[j])];
        }
        assert cards[..|cards|] == cards;
        FlattenStep(stacks, i);
      }
      assert stacks[..|stacks|] == stacks;
    }

    /** What `getCalendarObject` returns: the first card named `objectUri`, in full, or null. */
    function Lookup(calendarId: int, objectUri: string, stacks: seq<Stack>): Option<CalendarObject> {
      match FindFirst(CardUri, Flatten(stacks), objectUri)
      case None => None
      case Some(card) => Some(ObjectOf(calendarId, card))
    }

    /**
     * Looking up a file name agrees with the listing: it is null exactly when no listed record
     * has that uri, and otherwise it is the first such listed record plus its calendar data.
     */
    lemma LookupAgreesWithListing(calendarId: int, objectUri: string, stacks: seq<Stack>)
      ensures Lookup(calendarId, objectUri, stacks).None? <==>
        forall k :: 0 <= k < |Listing(calendarId, stacks)| ==> Listing(calendarId, stacks)[k].uri != objectUri
      ensures Lookup(calendarId, objectUri, stacks).Some? ==>
        exists k :: 0 <= k < |Listing(calendarId, stacks)| &&
          Listing(calendarId, stacks)[k].uri == objectUri &&
          (forall j :: 0 <= j < k ==> Listing(calendarId, stacks)[j].uri != objectUri) &&
          Listing(calendarId, stacks)[k] == Lookup(calendarId, objectUri, stacks).value.(calendarData := None)
    {
      var cards := Flatten(stacks);
      var list := Listing(calendarId, stacks);
      var uris := MapSeq(CardUri, cards);
      assert forall k :: 0 <= k < |list| ==> list[k].uri == uris[k];
      var r := FirstIndex(uris, objectUri);
      if r.Some? {
        assert forall j :: 0 <= j < r.value ==> uris[..r.value][j] == uris[j];
      }
    }

    /** With distinct card ids, looking up a card's file name returns that card's full record. */
    lemma LookupById(calendarId: int, stacks: seq<Stack>, k: nat)
      requires k < |Flatten(stacks)|
      requires forall a, b :: 0 <= a < b < |Flatten(stacks)| ==> Flatten(stacks)[a].id != Flatten(stacks)[b].id
      ensures Lookup(calendarId, ObjectUri(Flatten(stacks)[k].id), stacks) == Some(ObjectOf(calendarId, Flatten(stacks)[k]))
    {
      FirstMatchOfDistinctIds(Flatten(stacks), k);
    }

    /** A traversal that meets `objectUri` first at card `j` of stack `i` has found what the lookup returns. */
    lemma LookupFound(calendarId: int, objectUri: string, stacks: seq<Stack>, i: nat, j: nat)
      requires i < |stacks| && j < |stacks[i].cards|
      requires objectUri !in MapSeq(CardUri, Flatten(stacks[..i]) + stacks[i].cards[..j])
      requires ObjectUri(stacks[i].cards[j].id) == objectUri
      ensures Lookup(calendarId, objectUri, stacks) == Some(ObjectOf(calendarId, stacks[i].cards[j]))
    {
      FoundFirst(CardUri, stacks, i, j, objectUri);
    }

    /**
     * The inner loop of `getCalendarObject`: it scans the cards of stack `i`, after the
     * earlier stacks held no card named `objectUri`.
     */
    method ScanStack(calendarId: int, objectUri: string, stacks: seq<Stack>, i: nat) returns (result: Option<CalendarObject>)
      requires i < |stacks|
      requires objectUri !in MapSeq(CardUri, Flatten(stacks[..i]))
      ensures result.Some? ==> result == Lookup(calendarId, objectUri, stacks)
      ensures result.None? ==> objectUri !in MapSeq(CardUri, Flatten(stacks[..i + 1]))
    {
      var cards := stacks[i].cards;
      ghost var done := Flatten(stacks[..i]);
      assert done + cards[..0] == done;
      for j := 0 to |cards|
        invariant objectUri !in MapSeq(CardUri, done + cards[..j])
      {
        if ObjectUri(cards[j].id) == objectUri {
          LookupFound(calendarId, objectUri, stacks, i, j);
          return Some(ObjectOf(calendarId, cards[j]));
        }
        AbsentSnoc(CardUri, done, cards, j, objectUri);
      }
      assert cards[..|cards|] == cards;
      AbsentThroughStack(CardUri, stacks, i, objectUri);
      return None;
    }

    /** `getCalendarObject`: the same traversal as the listing, returning at the first card named `objectUri`. */
    method GetCalendarObject(calendarId: int, objectUri: string, stacks: seq<Stack>) returns (result: Option<CalendarObject>)
      ensures result == Lookup(calendarId, objectUri, stacks)
    {
      for i := 0 to |stacks|
        invariant objectUri !in MapSeq(CardUri, Flatten(stacks[..i]))
      {
        result := ScanStack(calendarId, objectUri, stacks, i);
        if result.Some? {
          return;
        }
      }
      assert stacks[..|stacks|] == stacks;
      return None;
    }

    function CreateCalendar(principalUri: string, calendarUri: string, properties: map<string, string>): (r: Result<int, DavError>)
      ensures r == Failure(NotImplemented)
    {
      Unsupported()
    }

    function DeleteCalendar(calendarId: int): (r: Result<(), DavError>)
      ensures r == Failure(NotImplemented)
    {
      Unsupported()
    }

    /** The property patch is given as the property names and values it would set. */
    function UpdateCalendar(calendarId: int, propPatch: map<string, string>): (r: Result<(), DavError>)
      ensures r == Failure(NotImplemented)
    {
      Unsupported()
    }

    function CreateCalendarObject(calendarId: int, objectUri: string, calendarData: string): (r: Result<Option<string>, DavError>)
      ensures r == Failure(NotImplemented)
    {
      Unsupported()
    }

    function UpdateCalendarObject(calendarId: int, objectUri: string, calendarData: string): (r: Result<Option<string>, DavError>)
      ensures r == Failure(NotImplemented)
    {
      Unsupported()
    }

    function DeleteCalendarObject(calendarId: int, objectUri: string): (r: Result<(), DavError>)
      ensures r == Failure(NotImplemented)
    {
      Unsupported()
    }

    /** `limit` is PHP's optional argument (`null` by default). */
    function GetChangesForCalendar(calendarId: int, syncToken: string, syncLevel: int, limit: Option<int>): (r: Result<Changes, DavError>)
      ensures r == Failure(NotImplemented)
    {
      Unsupported()
    }
  }
}
