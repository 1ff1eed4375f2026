/** What the activity-log table shows for one log entry: the actor's name and email, picked from the
    first truthy of several optional fields, the status badge and the trimmed message. */
module Logs {
  import opened JsValues
  import Text

  /** A name/email pair as it appears in the populated `userId`, in a request body or in a response's user. */
  datatype Person = Person(name: Option<string>, email: Option<string>)
  datatype Request = Request(body: Option<Person>)
  datatype Reply = Reply(user: Option<Person>)
  datatype Details = Details(userName: Option<string>, request: Option<Request>, response: Option<Reply>)

  /** A log entry with the fields the table reads; every one of them may be missing. */
  datatype LogEntry = LogEntry(
    id: string, userId: Option<Person>, details: Option<Details>, status: Option<string>, message: Option<string>)

  const NoName := "\U{2014}"

  /** The optional chains the resolvers read: `log.userId?.email` and so on. */
  function UserIdName(log: LogEntry): Option<string> {
    if log.userId.Some? then log.userId.value.name else None
  }
  function UserIdEmail(log: LogEntry): Option<string> {
    if log.userId.Some? then log.userId.value.email else None
  }
  function DetailsUserName(log: LogEntry): Option<string> {
    if log.details.Some? then log.details.value.userName else None
  }
  function RequestBody(log: LogEntry): Option<Person> {
    if log.details.Some? && log.details.value.request.Some? then log.details.value.request.value.body else None
  }
  function ResponseUser(log: LogEntry): Option<Person> {
    if log.details.Some? && log.details.value.response.Some? then log.details.value.response.value.user else None
  }
  function NameOf(p: Option<Person>): Option<string> {
    if p.Some? then p.value.name else None
  }
  function EmailOf(p: Option<Person>): Option<string> {
    if p.Some? then p.value.email else None
  }

  /** The candidates of getUserName, in priority order. */
  function NameCandidates(log: LogEntry): seq<Option<string>> {
    [UserIdName(log), DetailsUserName(log), NameOf(RequestBody(log)), EmailOf(RequestBody(log)),
     NameOf(ResponseUser(log)), EmailOf(ResponseUser(log))]
  }

  /** The candidates of getUserEmail, in priority order: the response's email comes before the request's. */
  function EmailCandidates(log: LogEntry): seq<Option<string>> {
    [UserIdEmail(log), EmailOf(ResponseUser(log)), EmailOf(RequestBody(log))]
  }

  /** A prioritized-field resolver: the first truthy candidate, or `fallback` when there is none. */
  function FirstTruthy(cands: seq<Option<string>>, fallback: string): (r: string)
    ensures (forall i :: 0 <= i < |cands| ==> !Truthy(cands[i])) ==> r == fallback
    ensures forall i :: 0 <= i < |cands| && Truthy(cands[i]) && (forall j :: 0 <= j < i ==> !Truthy(cands[j]))
              ==> r == cands[i].value
    ensures r == fallback || exists i :: 0 <= i < |cands| && Truthy(cands[i]) && cands[i].value == r
    decreases |cands|
  {
    if |cands| == 0 then fallback
    else
      var rest := FirstTruthy(cands[1..], fallback);
      assert forall i :: 1 <= i < |cands| ==> cands[1..][i - 1] == cands[i];
      Or(cands[0], rest)
  }

  /** getUserName: the first truthy of the six name candidates, "—" when there is none. */
  function GetUserName(log: LogEntry): (r: string)
    ensures r == NoName || r in Values(NameCandidates(log))
  {
    FirstTruthy(NameCandidates(log), NoName)
  }

  /** getUserEmail: the first truthy of the three email candidates, "" when there is none. */
  function GetUserEmail(log: LogEntry): (r: string)
    ensures r == "" || r in Values(EmailCandidates(log))
  {
    FirstTruthy(EmailCandidates(log), "")
  }

  /** The truthy values among the candidates. */
  function Values(cands: seq<Option<string>>): set<string> {
    set i | 0 <= i < |cands| && Truthy(cands[i]) :: cands[i].value
  }

  /** The resolver is exactly the `||` chain of the log table, field for field and in the same order. */
  lemma UserNameIsOrChain(log: LogEntry)
    ensures GetUserName(log) ==
      Or(UserIdName(log), Or(DetailsUserName(log), Or(NameOf(RequestBody(log)), Or(EmailOf(RequestBody(log)),
      Or(NameOf(ResponseUser(log)), Or(EmailOf(ResponseUser(log)), NoName))))))
  {
    var c := NameCandidates(log);
    assert c[5..][1..] == [];
    assert FirstTruthy(c[5..], NoName) == Or(c[5], NoName);
    assert c[4..][1..] == c[5..];
    assert FirstTruthy(c[4..], NoName) == Or(c[4], FirstTruthy(c[5..], NoName));
    assert c[3..][1..] == c[4..];
    assert FirstTruthy(c[3..], NoName) == Or(c[3], FirstTruthy(c[4..], NoName));
    assert c[2..][1..] == c[3..];
    assert FirstTruthy(c[2..], NoName) == Or(c[2], FirstTruthy(c[3..], NoName));
    assert c[1..][1..] == c[2..];
    assert FirstTruthy(c[1..], NoName) == Or(c[1], FirstTruthy(c[2..], NoName));
  }

  lemma UserEmailIsOrChain(log: LogEntry)
    ensures GetUserEmail(log) == Or(UserIdEmail(log), Or(EmailOf(ResponseUser(log)), Or(EmailOf(RequestBody(log)), "")))
  {
    var c := EmailCandidates(log);
    assert c[2..][1..] == [];
    assert FirstTruthy(c[2..], "") == Or(c[2], "");
    assert c[1..][1..] == c[2..];
    assert FirstTruthy(c[1..], "") == Or(c[1], FirstTruthy(c[2..], ""));
  }

  /** The name is "—" when every candidate is absent or empty; otherwise it is the first truthy candidate,
      so "—" with a truthy candidate means that candidate's value itself was "—". */
  lemma UserNameDash(log: LogEntry)
    ensures (forall i :: 0 <= i < 6 ==> !Truthy(NameCandidates(log)[i])) ==> GetUserName(log) == NoName
    ensures GetUserName(log) == NoName ==>
      (forall i :: 0 <= i < 6 ==> !Truthy(NameCandidates(log)[i])) || NoName in Values(NameCandidates(log))
  {
    var c := NameCandidates(log);
    if exists i :: 0 <= i < |c| && Truthy(c[i]) {
      FirstTruthyInValues(c, NoName);
    }
  }

  /** When some candidate is truthy, the resolver's result is one of the candidate values. */
  lemma {:induction false} FirstTruthyInValues(cands: seq<Option<string>>, fallback: string)
    requires exists i :: 0 <= i < |cands| && Truthy(cands[i])
    ensures FirstTruthy(cands, fallback) in Values(cands)
    decreases |cands|
  {
    if Truthy(cands[0]) {
      assert cands[0].value in Values(cands);
    } else {
      var i :| 0 <= i < |cands| && Truthy(cands[i]);
      assert cands[1..][i - 1] == cands[i];
      FirstTruthyInValues(cands[1..], fallback);
      var r := FirstTruthy(cands[1..], fallback);
      var k :| 0 <= k < |cands[1..]| && Truthy(cands[1..][k]) && cands[1..][k].value == r;
      assert cands[k + 1] == cands[1..][k];
    }
  }

  /** A truthy populated name wins whatever the details say. */
  lemma UserIdNameWins(log: LogEntry, d: Option<Details>)
    requires Truthy(UserIdName(log))
    ensures GetUserName(log) == UserIdName(log).value
    ensures GetUserName(log.(details := d)) == GetUserName(log)
  {
    UserNameIsOrChain(log);
    UserNameIsOrChain(log.(details := d));
  }

  /** The two resolvers read the request and response emails in opposite orders: with no other field set,
      the name shows the request body's email and the email line shows the response's. */
  lemma EmailOrdersDiffer(requestEmail: string, responseEmail: string)
    requires requestEmail != "" && responseEmail != ""
    ensures var log := LogEntry("l1", None,
              Some(Details(None, Some(Request(Some(Person(None, Some(requestEmail))))),
                                 Some(Reply(Some(Person(None, Some(responseEmail))))))), None, None);
      GetUserName(log) == requestEmail && GetUserEmail(log) == responseEmail
  {
    var log := LogEntry("l1", None,
              Some(Details(None, Some(Request(Some(Person(None, Some(requestEmail))))),
                                 Some(Reply(Some(Person(None, Some(responseEmail))))))), None, None);
    UserNameIsOrChain(log);
    UserEmailIsOrChain(log);
  }

  /** The status badge: its caption and whether it is the green one. */
  datatype Badge = Badge(caption: string, success: bool)

  /** Shown only for a truthy status; "Success" for exactly "success", "Failed" for anything else. */
  function StatusBadge(status: Option<string>): (b: Option<Badge>)
    ensures b.Some? <==> Truthy(status)
    ensures b.Some? ==> (b.value.caption == "Success" || b.value.caption == "Failed")
    ensures b.Some? ==> (b.value.success <==> status.value == "success") && (b.value.success <==> b.value.caption == "Success")
  {
    if Truthy(status) then
      if status.value == "success" then Some(Badge("Success", true)) else Some(Badge("Failed", false))
    else None
  }

  /** `log.message?.trim() || ""`: the trimmed message, empty when it is missing or blank. */
  function MessageText(message: Option<string>): (r: string)
    ensures r == "" <==> message.None? || Text.AllWhitespace(message.value)
    ensures message.Some? ==> r == Text.Trim(message.value)
  {
    if message.Some? then Or(Some(Text.Trim(message.value)), "") else ""
  }
}
