/**
 * The server plugin that adds the Deck calendars to a user's calendar home: a user principal
 * `principals/users/<id>` gets the home `deck/<id>`, every other principal none.
 */
module DeckDavPlugin {
  import opened Wrappers
  import opened PhpStrings
  import opened SabreUri

  /**
   * `getCalendarHomeForPrincipal`: the prefix test is written as
   * `strrpos($principalUrl, 'principals/users', -strlen($principalUrl)) !== false`;
   * `None` is `null`, and a `null` name from split reads as the empty string.
   */
  function CalendarHomeForPrincipal(principalUrl: string): (home: Option<string>)
    ensures home.Some? ==> |home.value| >= 5 && home.value[..5] == "deck/" && '/' !in home.value[5..]
  {
    if StrRPos(principalUrl, "principals/users", -|principalUrl|).Some? then
      var name := SplitName(principalUrl).GetOr("");
      assert ("deck/" + name)[5..] == name;
      Some("deck/" + name)
    else None
  }

  /** There is a home exactly for the principals whose URL starts with `principals/users`. */
  lemma CalendarHomeIffUsersPrefix(principalUrl: string)
    ensures CalendarHomeForPrincipal(principalUrl).Some? <==> "principals/users" <= principalUrl
  {
    StrRPosFromStartIsPrefixTest(principalUrl, "principals/users");
  }

  /** A user principal's home is `deck/` followed by the principal's id. */
  lemma CalendarHomeOfUser(id: string)
    requires id != [] && '/' !in id
    ensures CalendarHomeForPrincipal("principals/users/" + id) == Some("deck/" + id)
  {
    var url := "principals/users/" + id;
    assert "principals/users" <= url;
    CalendarHomeIffUsersPrefix(url);
    SplitNameOfJoin("principals/users/", id);
  }

  /** A group principal has no Deck calendar home. */
  lemma CalendarHomeOfGroupIsNone()
    ensures CalendarHomeForPrincipal("principals/groups/x") == None
  {
    var url := "principals/groups/x";
    CalendarHomeIffUsersPrefix(url);
    assert url[11] != "principals/users"[11];
  }

  /** The prefix test is on characters, not on path segments: `principals/usersX/y` gets a home. */
  lemma CalendarHomeNotSegmentAware()
    ensures CalendarHomeForPrincipal("principals/usersX/y") == Some("deck/y")
  {
    var url := "principals/usersX/y";
    assert url[..16] == "principals/users";
    assert "principals/users" <= url;
    CalendarHomeIffUsersPrefix(url);
    assert url == "principals/usersX/" + "y";
    SplitNameOfJoin("principals/usersX/", "y");
    assert CalendarHomeForPrincipal(url) == Some("deck/" + SplitName(url).GetOr(""));
    assert "deck/" + "y" == "deck/y";
  }
}
