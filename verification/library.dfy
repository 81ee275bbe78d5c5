/**
 * `borrowBook`: lending a title removes its first copy from the list of
 * available books and reports the outcome as a message.
 */
module Library {

  /** The message for a successful loan. */
  function BorrowedMessage(title: string): string
  {
    "You have borrowed '" + title + "'."
  }

  /** The message for a title that is not on the list. */
  function NotAvailableMessage(title: string): string
  {
    "Sorry, '" + title + "' is not available."
  }

  /** The two messages can never be confused, whatever the titles. */
  lemma MessagesDistinct(t1: string, t2: string)
    ensures BorrowedMessage(t1) != NotAvailableMessage(t2)
  {
    assert BorrowedMessage(t1)[0] == 'Y';
    assert NotAvailableMessage(t2)[0] == 'S';
  }

  /** `indexOf`: the position of the first copy of the title, or -1 when there is none. */
  function FirstIndexOf(books: seq<string>, title: string): (i: int)
    ensures -1 <= i < |books|
    ensures i == -1 <==> title !in books
    ensures 0 <= i ==> books[i] == title
    ensures forall k :: 0 <= k < i ==> books[k] != title
  {
    if books == [] then -1
    else if books[0] == title then 0
    else
      var j := FirstIndexOf(books[1..], title);
      if j == -1 then -1 else j + 1
  }

  /** The list with the element at position `i` taken out (`splice(i, 1)`). */
  function RemoveAt(books: seq<string>, i: nat): (rest: seq<string>)
    requires i < |books|
    ensures |rest| == |books| - 1
    ensures forall k :: 0 <= k < i ==> rest[k] == books[k]
    ensures forall k :: i <= k < |rest| ==> rest[k] == books[k + 1]
    ensures multiset(rest) + multiset{books[i]} == multiset(books)
  {
    assert books == books[..i] + [books[i]] + books[i + 1..];
    books[..i] + books[i + 1..]
  }

  /** The message returned and the list as the call leaves it. */
  datatype Loan = Loan(message: string, books: seq<string>)

  /** `borrowBook` as it stands: a membership check, then removal of the first copy. */
  function BorrowBook(title: string, books: seq<string>): (r: Loan)
    ensures title !in books ==> r == Loan(NotAvailableMessage(title), books)
    ensures title in books ==>
      && r.message == BorrowedMessage(title)
      && |r.books| == |books| - 1
      && var i := FirstIndexOf(books, title);
         r.books == books[..i] + books[i + 1..]
    ensures title in books ==> multiset(r.books) + multiset{title} == multiset(books)
  {
    if title !in books then Loan(NotAvailableMessage(title), books)
    else Loan(BorrowedMessage(title), RemoveAt(books, FirstIndexOf(books, title)))
  }

  /** The earlier, commented-out version: look the title up, then remove it if found. */
  function BorrowBookEarlier(title: string, books: seq<string>): (r: Loan)
    ensures title !in books ==> r == Loan(NotAvailableMessage(title), books)
    ensures title in books ==>
      && r.message == BorrowedMessage(title)
      && var i := FirstIndexOf(books, title);
         r.books == books[..i] + books[i + 1..]
  {
    var index := FirstIndexOf(books, title);
    if index != -1 then Loan(BorrowedMessage(title), RemoveAt(books, index))
    else Loan(NotAvailableMessage(title), books)
  }

  /** The two versions return the same message and leave the same list. */
  lemma BorrowVersionsAgree(title: string, books: seq<string>)
    ensures BorrowBookEarlier(title, books) == BorrowBook(title, books)
  {
  }

  /**
   * A borrow takes out only the first copy: the books before it and after
   * it keep their order, and any later copy of the title stays available.
   */
  lemma BorrowKeepsLaterCopies(title: string, books: seq<string>, k: int)
    requires FirstIndexOf(books, title) < k < |books|
    requires title in books
    ensures BorrowBook(title, books).books[k - 1] == books[k]
    ensures books[k] == title ==> title in BorrowBook(title, books).books
  {
  }

  /** The test suite's loan of a title that is on the list. */
  lemma BorrowAvailableScenario()
    ensures BorrowBook("King Richard the Third", ["A Doll's House", "King Richard the Third", "Animal Farm"])
      == Loan("You have borrowed 'King Richard the Third'.", ["A Doll's House", "Animal Farm"])
  {
    var title := "King Richard the Third";
    var books := ["A Doll's House", title, "Animal Farm"];
    assert books[0][0] != title[0];
    assert FirstIndexOf(books, title) == 1;
    assert RemoveAt(books, 1) == ["A Doll's House", "Animal Farm"];
    assert BorrowedMessage(title) == "You have borrowed 'King Richard the Third'.";
  }

  /** The test suite's loan of a title that is not on the list. */
  lemma BorrowUnavailableScenario()
    ensures BorrowBook("The Great Gatsby", ["A Doll's House", "Animal Farm"])
      == Loan("Sorry, 'The Great Gatsby' is not available.", ["A Doll's House", "Animal Farm"])
  {
    var title := "The Great Gatsby";
    var books := ["A Doll's House", "Animal Farm"];
    assert books[0][0] != title[0] && books[1][0] != title[0];
    assert FirstIndexOf(books, title) == -1;
    assert NotAvailableMessage(title) == "Sorry, 'The Great Gatsby' is not available.";
  }
}
