/**
 * The budget service: one `u8` counter kept as decimal text in the file
 * `current_budget`, shown by `home` and changed by `add_budget` and
 * `subtract_budget`. Each handler call is one atomic step on the file.
 */
module BudgetService {
  import opened U8Text

  datatype Option<T> = None | Some(value: T)

  /**
   * `Budget { current: u8 }`: the JSON body of requests and responses and the
   * value the home page shows. `Budget::new(current)` is the constructor `Budget(current)`.
   */
  datatype Budget = Budget(current: U8)

  datatype StatusCode = Created | InternalServerError {
    function Code(): int {
      match this
      case Created => 201
      case InternalServerError => 500
    }
  }

  /** What reading the file `current_budget` and parsing it as a `u8` yields. */
  datatype Stored = Unreadable | Unparsable | Current(value: U8)

  /** What `home` answers: a plain message, or the page rendered for a budget. */
  datatype HomePage = Message(text: string) | Page(budget: Budget)

  /**
   * How a call to `add_budget` or `subtract_budget` ends: a status with a JSON
   * body, or an arithmetic overflow that aborts the request before anything is
   * written (Rust's overflow check on `u8` arithmetic).
   */
  datatype Reply = Reply(status: StatusCode, body: Budget) | Aborted

  /** The read-then-parse step every handler begins with; `None` is a file that cannot be read. */
  function ReadBudget(file: Option<string>): (r: Stored)
    ensures r == Unreadable <==> file.None?
    ensures r == Unparsable <==> file.Some? && !IsU8Text(file.value)
    ensures r.Current? ==> file.Some? && r.value == DecimalValue(Magnitude(file.value))
  {
    match file
    case None => Unreadable
    case Some(text) =>
      match ParseU8(text)
      case Rejected(_) => Unparsable
      case Parsed(v) => Current(v)
  }

  /** The `home` handler, up to the rendering of the page. */
  function Home(file: Option<string>): (page: HomePage)
    ensures file.None? ==> page == Message("No budget found")
    ensures file.Some? && !IsU8Text(file.value) ==> page == Message("Invalid budget")
    ensures file.Some? && IsU8Text(file.value) ==>
      page == Page(Budget(DecimalValue(Magnitude(file.value))))
  {
    match ReadBudget(file)
    case Unreadable => Message("No budget found")
    case Unparsable => Message("Invalid budget")
    case Current(v) => Page(Budget(v))
  }

  /** Texts that `home` reports as "Invalid budget" and texts it shows as a budget. */
  lemma HomeExamples()
    ensures Home(Some("300")) == Message("Invalid budget")
    ensures Home(Some("256")) == Message("Invalid budget")
    ensures Home(Some("")) == Message("Invalid budget")
    ensures Home(Some("10\n")) == Message("Invalid budget")
    ensures Home(Some(" 10")) == Message("Invalid budget")
    ensures Home(Some("-1")) == Message("Invalid budget")
    ensures Home(Some("+")) == Message("Invalid budget")
    ensures Home(Some("ten")) == Message("Invalid budget")
    ensures Home(Some("255")) == Page(Budget(255))
    ensures Home(Some("+7")) == Page(Budget(7))
    ensures Home(Some("007")) == Page(Budget(7))
  {
    NonDigitRejected("10\n", 2);
    NonDigitRejected(" 10", 0);
    NonDigitRejected("-1", 0);
    NonDigitRejected("ten", 0);
  }

  /** The file `current_budget`; `contents` is `None` while the file cannot be read. */
  class BudgetFile {
    var contents: Option<string>

    constructor (initial: Option<string>)
      ensures contents == initial
    {
      contents := initial;
    }

    /** `add_budget`: read, parse, add the request's amount, overwrite the file with the sum. */
    method AddBudget(body: Budget) returns (reply: Reply)
      modifies this
      ensures match ReadBudget(old(contents))
        case Current(v) =>
          if v + body.current <= 255 then
            reply == Reply(Created, Budget(v + body.current)) &&
            contents == Some(FormatU8(v + body.current))
          else
            reply == Aborted && contents == old(contents)
        case _ =>
          reply == Reply(InternalServerError, Budget(0)) && contents == old(contents)
      ensures reply.Reply? && reply.status == Created ==>
        contents.Some? && IsCanonical(contents.value) &&
        ReadBudget(contents) == Current(reply.body.current)
    {
      var stored := ReadBudget(contents);
      if !stored.Current? {
        return Reply(InternalServerError, Budget(0));
      }
      var current := stored.value;
      if current + body.current > 255 {
        return Aborted;
      }
      var newBudget: U8 := current + body.current;
      contents := Some(FormatU8(newBudget));
      ParseFormatRoundTrip(newBudget);
      return Reply(Created, Budget(newBudget));
    }

    /** `subtract_budget`: read, parse, subtract the request's amount, overwrite the file with the difference. */
    method SubtractBudget(body: Budget) returns (reply: Reply)
      modifies this
      ensures match ReadBudget(old(contents))
        case Current(v) =>
          if body.current <= v then
            reply == Reply(Created, Budget(v - body.current)) &&
            contents == Some(FormatU8(v - body.current))
          else
            reply == Aborted && contents == old(contents)
        case _ =>
          reply == Reply(InternalServerError, Budget(0)) && contents == old(contents)
      ensures reply.Reply? && reply.status == Created ==>
        contents.Some? && IsCanonical(contents.value) &&
        ReadBudget(contents) == Current(reply.body.current)
    {
      var stored := ReadBudget(contents);
      if !stored.Current? {
        return Reply(InternalServerError, Budget(0));
      }
      var current := stored.value;
      if body.current > current {
        return Aborted;
      }
      var newBudget: U8 := current - body.current;
      contents := Some(FormatU8(newBudget));
      ParseFormatRoundTrip(newBudget);
      return Reply(Created, Budget(newBudget));
    }
  }

  /**
   * `u8` `+` as a release build compiles it (no overflow check): the sum
   * modulo 256, so an overflowing sum comes out smaller than either operand.
   */
  function WrappingAdd(a: U8, b: U8): (r: U8)
    ensures a + b <= 255 ==> r == a + b
    ensures a + b > 255 ==> r == a + b - 256 && r < a && r < b
  {
    (a + b) % 256
  }

  /**
   * `u8` `-` as a release build compiles it: the difference modulo 256, so a
   * subtraction of more than is there comes out larger than the minuend.
   */
  function WrappingSub(a: U8, b: U8): (r: U8)
    ensures b <= a ==> r == a - b
    ensures b > a ==> r == a - b + 256 && r > a
  {
    (a - b) % 256
  }

  /** In a release build, adding 10 to a stored 250 writes "4" and answers 201 with 4. */
  lemma ReleaseAddWraps()
    ensures WrappingAdd(250, 10) == 4 && FormatU8(WrappingAdd(250, 10)) == "4"
  {
  }

  /** In a release build, subtracting 10 from a stored 5 writes "251" and answers 201 with 251. */
  lemma ReleaseSubtractWraps()
    ensures WrappingSub(5, 10) == 251 && FormatU8(WrappingSub(5, 10)) == "251"
  {
  }

  /** A missing file: `home` says so, and both mutations answer 500 with body 0 and write nothing. */
  method ScenarioMissingFile() {
    var file := new BudgetFile(None);
    assert Home(file.contents) == Message("No budget found");
    var r := file.AddBudget(Budget(5));
    assert r == Reply(InternalServerError, Budget(0)) && file.contents == None;
    r := file.SubtractBudget(Budget(5));
    assert r == Reply(InternalServerError, Budget(0)) && file.contents == None;
  }

  /** A file holding "300": `home` reports an invalid budget, and a mutation answers 500. */
  method ScenarioOutOfRange() {
    var file := new BudgetFile(Some("300"));
    HomeExamples();
    assert Home(file.contents) == Message("Invalid budget");
    var r := file.AddBudget(Budget(5));
    assert r == Reply(InternalServerError, Budget(0)) && file.contents == Some("300");
  }

  /** A file holding "10": adding 5 writes "15" and answers 201 with 15, which `home` then shows. */
  method ScenarioAdd() {
    var file := new BudgetFile(Some("10"));
    assert ParseU8("10") == Parsed(10);
    var r := file.AddBudget(Budget(5));
    assert FormatU8(15) == "15";
    assert r == Reply(Created, Budget(15)) && file.contents == Some("15");
    assert Home(file.contents) == Page(Budget(15));
  }

  /** Subtracting down to 0 is answered; subtracting 1 from 0 aborts and leaves "0" in place. */
  method ScenarioSubtractToZero() {
    var file := new BudgetFile(Some("15"));
    assert ParseU8("15") == Parsed(15);
    var r := file.SubtractBudget(Budget(15));
    assert FormatU8(0) == "0";
    assert r == Reply(Created, Budget(0)) && file.contents == Some("0");
    assert ParseU8("0") == Parsed(0);
    r := file.SubtractBudget(Budget(1));
    assert r == Aborted && file.contents == Some("0");
  }

  /** Adding 1 to 255 aborts and leaves the file as it was. */
  method ScenarioAddOverflow() {
    var file := new BudgetFile(Some("255"));
    assert ParseU8("255") == Parsed(255);
    var r := file.AddBudget(Budget(1));
    assert r == Aborted && file.contents == Some("255");
  }
}
