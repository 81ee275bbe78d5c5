/** The small helpers of the utility module. */
module Utils {
  import opened Common

  /** `sum`: the sum of two integers. */
  function Sum(a: int, b: int): (r: int)
    ensures r - a == b && r - b == a
  {
    a + b
  }

  /** The passing `sum` checks of the test suite. */
  lemma SumScenarios()
    ensures Sum(2, 2) == 4 && Sum(1, 1) != 3 && Sum(2, 3) > 4
  {
  }

  /** A user record. */
  datatype User = User(name: string, age: int, createdAt: Instant)

  /** `createUser`: the given name and age, stamped with the clock reading. */
  function CreateUser(name: string, age: int, now: Instant): (u: User)
    ensures u.name == name && u.age == age && u.createdAt == now
  {
    User(name, age, now)
  }

  predicate IsAdult(u: User)
  {
    u.age >= 18
  }

  /** `a` occurs in `b` in order, possibly with gaps (greedy matching). */
  predicate IsSubsequence<T(==)>(a: seq<T>, b: seq<T>)
    decreases |b|
  {
    if a == [] then true
    else if b == [] then false
    else if a[0] == b[0] then IsSubsequence(a[1..], b[1..])
    else IsSubsequence(a, b[1..])
  }

  /**
   * `filterAdults`: exactly the adult users, each as often as in the input
   * and in their original order.
   */
  function FilterAdults(users: seq<User>): (r: seq<User>)
    ensures forall i :: 0 <= i < |r| ==> IsAdult(r[i])
    ensures forall u :: IsAdult(u) ==> multiset(r)[u] == multiset(users)[u]
    ensures IsSubsequence(r, users)
  {
    if users == [] then []
    else
      assert users == [users[0]] + users[1..];
      if IsAdult(users[0]) then [users[0]] + FilterAdults(users[1..])
      else FilterAdults(users[1..])
  }

  /** Filtering an already filtered list changes nothing. */
  lemma {:induction false} FilterAdultsIdempotent(users: seq<User>)
    ensures FilterAdults(FilterAdults(users)) == FilterAdults(users)
  {
    if users != [] {
      FilterAdultsIdempotent(users[1..]);
      if IsAdult(users[0]) {
        var rest := FilterAdults(users[1..]);
        assert ([users[0]] + rest)[1..] == rest;
      }
    }
  }

  /** `findInArray`: a linear `indexOf` search, true exactly when the value occurs. */
  method FindInArray<T(==)>(arr: seq<T>, value: T) returns (found: bool)
    ensures found <==> value in arr
  {
    var i := 0;
    while i < |arr|
      invariant 0 <= i <= |arr|
      invariant value !in arr[..i]
    {
      if arr[i] == value {
        return true;
      }
      i := i + 1;
    }
    assert arr[..i] == arr;
    return false;
  }

  /** The error message of a call to `parseJSON` with no text. */
  const NoJsonMessage: string := "No JSON string provided"

  /**
   * The guard of `parseJSON`: a missing or empty text fails before any
   * parsing; any other text is handed to the parser unchanged.
   */
  function CheckJsonInput(text: Option<string>): (r: Result<string, string>)
    ensures r.Failure? <==> text.None? || text == Some("")
    ensures r.Failure? ==> r.error == NoJsonMessage
    ensures r.Success? ==> Some(r.value) == text
  {
    match text
    case None => Failure(NoJsonMessage)
    case Some(s) => if s == "" then Failure(NoJsonMessage) else Success(s)
  }
}
