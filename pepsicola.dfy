/** The browser client's integer helpers: the number of decimal places a
    contract denominator needs, the stacking of an order book into price
    levels for display, and the capped chat pane. */
module BrowserClient {

  const MAX_BOOK_ENTRIES: nat := 10
  const MAX_CHAT_LINES: nat := 100

  function Max(a: int, b: int): int { if a >= b then a else b }

  function Min(a: int, b: int): int { if a <= b then a else b }

  /** How often the prime `p` divides `n`. */
  function Multiplicity(p: nat, n: int): (k: nat)
    requires p > 1 && n != 0
    decreases if n < 0 then -n else n
  {
    if n % p == 0 then
      QuotientSmaller(p, n);
      1 + Multiplicity(p, n / p)
    else 0
  }

  lemma QuotientSmaller(p: nat, n: int)
    requires p > 1 && n != 0 && n % p == 0
    ensures n / p != 0
    ensures (if n / p < 0 then -(n / p) else n / p) < (if n < 0 then -n else n)
  {
    var q := n / p;
    assert n == q * p;
    if q > 0 {
      MulAtLeastTwice(q, p);
    } else if q < 0 {
      MulAtLeastTwice(-q, p);
      assert (-q) * p == -(q * p);
    }
  }

  lemma MulAtLeastTwice(q: nat, p: nat)
    requires p > 1
    ensures q * p >= 2 * q
  {
    var d := p - 2;
    assert q * p == q * 2 + q * d;
  }

  function Pow(b: nat, k: nat): (r: nat)
    ensures b > 0 ==> r > 0
  {
    if k == 0 then 1 else b * Pow(b, k - 1)
  }

  /** Taking out a factor 5 does not change how often 2 divides. */
  lemma {:induction false} TwosIgnoreFive(n: int)
    requires n != 0
    ensures Multiplicity(2, 5 * n) == Multiplicity(2, n)
    decreases if n < 0 then -n else n
  {
    if n % 2 == 0 {
      QuotientSmaller(2, n);
      TwosIgnoreFive(n / 2);
      assert (5 * n) / 2 == 5 * (n / 2);
    }
  }

  /** Taking out a factor 2 does not change how often 5 divides. */
  lemma {:induction false} FivesIgnoreTwo(n: int)
    requires n != 0
    ensures Multiplicity(5, 2 * n) == Multiplicity(5, n)
    decreases if n < 0 then -n else n
  {
    if n % 5 == 0 {
      QuotientSmaller(5, n);
      FivesIgnoreTwo(n / 5);
      assert (2 * n) / 5 == 2 * (n / 5);
    }
  }

  /** Ten to the `k` needs `k` decimal places: it holds `k` factors of 2 and
      `k` factors of 5. */
  lemma {:induction false} PowerOfTenPlaces(k: nat)
    ensures Multiplicity(5, Pow(10, k)) == k && Multiplicity(2, Pow(10, k)) == k
  {
    if k > 0 {
      PowerOfTenPlaces(k - 1);
      var m := Pow(10, k - 1);
      assert Pow(10, k) == 10 * m;
      assert (10 * m) / 5 == 2 * m;
      assert (10 * m) / 2 == 5 * m;
      FivesIgnoreTwo(m);
      TwosIgnoreFive(m);
    }
  }

  /** `decimalPlacesNeeded`: strips the factors 5, then the factors 2, and
      returns the larger count.  The loops never end on zero, which is
      therefore excluded. */
  method DecimalPlacesNeeded(denominator: int) returns (places: nat)
    requires denominator != 0
    ensures places == Max(Multiplicity(5, denominator), Multiplicity(2, denominator))
  {
    var d := denominator;
    var factorFive: nat := 0;
    var factorTwo: nat := 0;
    while d % 5 == 0
      invariant d != 0
      invariant factorFive + Multiplicity(5, d) == Multiplicity(5, denominator)
      invariant Multiplicity(2, d) == Multiplicity(2, denominator)
      decreases if d < 0 then -d else d
    {
      QuotientSmaller(5, d);
      assert d == 5 * (d / 5);
      TwosIgnoreFive(d / 5);
      factorFive := factorFive + 1;
      d := d / 5;
    }
    while d % 2 == 0
      invariant d != 0
      invariant factorTwo + Multiplicity(2, d) == Multiplicity(2, denominator)
      decreases if d < 0 then -d else d
    {
      QuotientSmaller(2, d);
      factorTwo := factorTwo + 1;
      d := d / 2;
    }
    places := Max(factorFive, factorTwo);
  }

  /** One order of the book as the client receives it: `[price, quantity]`. */
  datatype Entry = Entry(price: int, quantity: int)

  /** One displayed level: `[quantity, price]`. */
  datatype Level = Level(quantity: int, price: int)

  predicate SortedByPrice(s: seq<Entry>)
  {
    forall i, j :: 0 <= i < j < |s| ==> s[i].price <= s[j].price
  }

  /** The levels of `s` read in order: an entry at the price of the level
      before it joins that level, any other entry opens a new one. */
  function Stack(s: seq<Entry>): (r: seq<Level>)
    ensures |r| <= |s| && (s == [] <==> r == [])
    ensures s != [] ==> r[|r| - 1].price == s[|s| - 1].price
  {
    if s == [] then []
    else
      var r := Stack(s[..|s| - 1]);
      var e := s[|s| - 1];
      if r != [] && r[|r| - 1].price == e.price then
        r[..|r| - 1] + [Level(r[|r| - 1].quantity + e.quantity, e.price)]
      else r + [Level(e.quantity, e.price)]
  }

  function TotalQuantity(s: seq<Entry>): int
  {
    if s == [] then 0 else TotalQuantity(s[..|s| - 1]) + s[|s| - 1].quantity
  }

  function LevelQuantity(r: seq<Level>): int
  {
    if r == [] then 0 else LevelQuantity(r[..|r| - 1]) + r[|r| - 1].quantity
  }

  predicate StrictlyIncreasing(r: seq<Level>)
  {
    forall i, j :: 0 <= i < j < |r| ==> r[i].price < r[j].price
  }

  /** The levels of a sorted book have strictly increasing prices. */
  lemma {:induction false} StackStrictlyIncreasing(s: seq<Entry>)
    requires SortedByPrice(s)
    ensures StrictlyIncreasing(Stack(s))
  {
    if s != [] {
      var init := s[..|s| - 1];
      assert SortedByPrice(init);
      StackStrictlyIncreasing(init);
      var r := Stack(init);
      if init != [] {
        assert s[|s| - 2].price <= s[|s| - 1].price;
        assert r[|r| - 1].price == init[|init| - 1].price;
      }
    }
  }

  /** Stacking keeps the total quantity of the book. */
  lemma {:induction false} StackKeepsQuantity(s: seq<Entry>)
    ensures LevelQuantity(Stack(s)) == TotalQuantity(s)
  {
    if s != [] {
      var init := s[..|s| - 1];
      StackKeepsQuantity(init);
      var r := Stack(init);
      var e := s[|s| - 1];
      if r != [] && r[|r| - 1].price == e.price {
        var rest := r[..|r| - 1];
        assert r == rest + [r[|r| - 1]];
        LevelQuantityAppend(rest, r[|r| - 1]);
        LevelQuantityAppend(rest, Level(r[|r| - 1].quantity + e.quantity, e.price));
      } else {
        LevelQuantityAppend(r, Level(e.quantity, e.price));
      }
    }
  }

  /** The quantity the book holds at price `p`. */
  function QuantityAt(s: seq<Entry>, p: int): int
  {
    if s == [] then 0
    else QuantityAt(s[..|s| - 1], p) + (if s[|s| - 1].price == p then s[|s| - 1].quantity else 0)
  }

  /** A book whose prices are all below `p` holds nothing at `p`. */
  lemma {:induction false} NothingAtHigherPrice(s: seq<Entry>, p: int)
    requires forall i :: 0 <= i < |s| ==> s[i].price < p
    ensures QuantityAt(s, p) == 0
  {
    if s != [] {
      NothingAtHigherPrice(s[..|s| - 1], p);
    }
  }

  /** Each level of a sorted book carries exactly the quantity of the book's
      entries at its price. */
  lemma {:induction false} StackSumsEachPrice(s: seq<Entry>)
    requires SortedByPrice(s)
    ensures forall i :: 0 <= i < |Stack(s)| ==> Stack(s)[i].quantity == QuantityAt(s, Stack(s)[i].price)
  {
    if s != [] {
      var init := s[..|s| - 1];
      var e := s[|s| - 1];
      assert SortedByPrice(init);
      StackSumsEachPrice(init);
      StackStrictlyIncreasing(init);
      var r := Stack(init);
      if r != [] {
        assert r[|r| - 1].price == init[|init| - 1].price <= e.price;
      } else {
        assert init == [];
      }
      if r != [] && r[|r| - 1].price == e.price {
        forall i | 0 <= i < |Stack(s)|
          ensures Stack(s)[i].quantity == QuantityAt(s, Stack(s)[i].price)
        {
          if i < |r| - 1 {
            assert Stack(s)[i] == r[i] && r[i].price < r[|r| - 1].price;
          }
        }
      } else {
        forall i | 0 <= i < |Stack(s)|
          ensures Stack(s)[i].quantity == QuantityAt(s, Stack(s)[i].price)
        {
          if i < |r| {
            assert Stack(s)[i] == r[i] && r[i].price <= r[|r| - 1].price < e.price;
          } else {
            forall k | 0 <= k < |init|
              ensures init[k].price < e.price
            {
              assert init[k].price <= init[|init| - 1].price;
            }
            NothingAtHigherPrice(init, e.price);
          }
        }
      }
    }
  }

  lemma LevelQuantityAppend(r: seq<Level>, l: Level)
    ensures LevelQuantity(r + [l]) == LevelQuantity(r) + l.quantity
  {
    assert (r + [l])[..|r|] == r;
  }

  function Prices(s: seq<Entry>): set<int>
  {
    if s == [] then {} else Prices(s[..|s| - 1]) + {s[|s| - 1].price}
  }

  function LevelPrices(r: seq<Level>): set<int>
  {
    if r == [] then {} else LevelPrices(r[..|r| - 1]) + {r[|r| - 1].price}
  }

  /** Every price of the book has a level, and every level has a price of
      the book. */
  lemma {:induction false} StackKeepsPrices(s: seq<Entry>)
    ensures LevelPrices(Stack(s)) == Prices(s)
  {
    if s != [] {
      var init := s[..|s| - 1];
      StackKeepsPrices(init);
      var r := Stack(init);
      var e := s[|s| - 1];
      if r != [] && r[|r| - 1].price == e.price {
        var rest := r[..|r| - 1];
        assert r == rest + [r[|r| - 1]];
        LevelPricesAppend(rest, r[|r| - 1]);
        LevelPricesAppend(rest, Level(r[|r| - 1].quantity + e.quantity, e.price));
      } else {
        LevelPricesAppend(r, Level(e.quantity, e.price));
      }
    }
  }

  lemma LevelPricesAppend(r: seq<Level>, l: Level)
    ensures LevelPrices(r + [l]) == LevelPrices(r) + {l.price}
  {
    assert (r + [l])[..|r|] == r;
  }

  method Swap(a: array<Entry>, j: nat)
    requires 0 < j < a.Length
    modifies a
    ensures a[..] == old(a[..])[j - 1 := old(a[j])][j := old(a[j - 1])]
    ensures multiset(a[..]) == multiset(old(a[..]))
  {
    a[j - 1], a[j] := a[j], a[j - 1];
  }

  /** One step of the sort: the entry at `i` moves left past every entry
      of higher price. */
  method Insert(a: array<Entry>, i: nat)
    requires i < a.Length && SortedByPrice(a[..i])
    modifies a
    ensures SortedByPrice(a[..i + 1]) && multiset(a[..]) == multiset(old(a[..]))
  {
    var j := i;
    while j > 0 && a[j - 1].price > a[j].price
      invariant 0 <= j <= i
      invariant forall k, l :: 0 <= k < l <= i && k != j && l != j ==> a[k].price <= a[l].price
      invariant forall l :: j < l <= i ==> a[j].price < a[l].price
      invariant multiset(a[..]) == multiset(old(a[..]))
    {
      Swap(a, j);
      j := j - 1;
    }
  }

  /** The sort of `stackBook`: ascending by price, in place. */
  method SortByPrice(a: array<Entry>)
    modifies a
    ensures SortedByPrice(a[..]) && multiset(a[..]) == multiset(old(a[..]))
  {
    var i := 0;
    while i < a.Length
      invariant 0 <= i <= a.Length
      invariant SortedByPrice(a[..i])
      invariant multiset(a[..]) == multiset(old(a[..]))
    {
      Insert(a, i);
      i := i + 1;
    }
    assert a[..a.Length] == a[..];
  }

  /** `stackBook`: sort the book by price, then merge the equal prices
      among its first ten entries into `[quantity, price]` levels. */
  method StackBook(book: array<Entry>) returns (newBook: seq<Level>)
    modifies book
    ensures SortedByPrice(book[..]) && multiset(book[..]) == multiset(old(book[..]))
    ensures newBook == Stack(book[..Min(book.Length, MAX_BOOK_ENTRIES)])
  {
    SortByPrice(book);
    newBook := StackTop(book);
  }

  /** One more entry of `s` either joins the last level or opens a new one. */
  lemma StackStep(s: seq<Entry>, i: nat, done: seq<Level>, quantity: int, price: int)
    requires i < |s| && Stack(s[..i]) == done + [Level(quantity, price)]
    ensures s[i].price == price ==> Stack(s[..i + 1]) == done + [Level(quantity + s[i].quantity, price)]
    ensures s[i].price != price ==> Stack(s[..i + 1]) == (done + [Level(quantity, price)]) + [Level(s[i].quantity, s[i].price)]
  {
    assert s[..i + 1][..i] == s[..i];
    assert (done + [Level(quantity, price)])[..|done|] == done;
  }

  /** The loop of `stackBook` over the sorted book: a running price and
      quantity, pushed as a level whenever the price changes. */
  method StackTop(book: array<Entry>) returns (newBook: seq<Level>)
    ensures newBook == Stack(book[..Min(book.Length, MAX_BOOK_ENTRIES)])
  {
    if book.Length == 0 {
      assert book[..0] == [];
      return [];
    }
    ghost var s := book[..];
    var price := book[0].price;
    var quantity := book[0].quantity;
    var n := Min(book.Length, MAX_BOOK_ENTRIES);
    newBook := [];
    var i := 1;
    assert s[..1] == [s[0]];
    while i < n
      invariant 1 <= i <= n
      invariant Stack(s[..i]) == newBook + [Level(quantity, price)]
    {
      var e := book[i];
      assert e == s[i];
      StackStep(s, i, newBook, quantity, price);
      if e.price == price {
        quantity := quantity + e.quantity;
      } else {
        newBook := newBook + [Level(quantity, price)];
        price := e.price;
        quantity := e.quantity;
      }
      i := i + 1;
    }
    newBook := newBook + [Level(quantity, price)];
    assert s[..n] == book[..n];
  }

  /** The levels `stackBook` returns have strictly increasing prices and
      carry the whole quantity of the first ten sorted entries. */
  lemma StackBookLevels(sorted: seq<Entry>)
    requires SortedByPrice(sorted)
    ensures StrictlyIncreasing(Stack(sorted[..Min(|sorted|, MAX_BOOK_ENTRIES)]))
    ensures LevelQuantity(Stack(sorted[..Min(|sorted|, MAX_BOOK_ENTRIES)]))
            == TotalQuantity(sorted[..Min(|sorted|, MAX_BOOK_ENTRIES)])
    ensures LevelPrices(Stack(sorted[..Min(|sorted|, MAX_BOOK_ENTRIES)]))
            == Prices(sorted[..Min(|sorted|, MAX_BOOK_ENTRIES)])
    ensures var top := sorted[..Min(|sorted|, MAX_BOOK_ENTRIES)];
            forall i :: 0 <= i < |Stack(top)| ==> Stack(top)[i].quantity == QuantityAt(top, Stack(top)[i].price)
  {
    var top := sorted[..Min(|sorted|, MAX_BOOK_ENTRIES)];
    assert SortedByPrice(top);
    StackStrictlyIncreasing(top);
    StackKeepsQuantity(top);
    StackKeepsPrices(top);
    StackSumsEachPrice(top);
  }

  /** The chat pane of the client page. */
  class ChatPane {
    var messages: seq<string>

    ghost predicate Valid()
      reads this
    {
      |messages| <= MAX_CHAT_LINES
    }

    constructor ()
      ensures Valid() && messages == []
    {
      messages := [];
    }

    /** `onChat`: append `<user> message` and, past the cap, drop the
        oldest line. */
    method OnChat(user: string, message: string)
      modifies this
      ensures var line := "&lt;" + user + "&gt; " + message;
              && |messages| > 0 && messages[|messages| - 1] == line
              && (|old(messages)| < MAX_CHAT_LINES ==> messages == old(messages) + [line])
              && (|old(messages)| >= MAX_CHAT_LINES ==> messages == old(messages)[1..] + [line])
      ensures old(Valid()) ==> Valid()
    {
      messages := messages + ["&lt;" + user + "&gt; " + message];
      if |messages| > MAX_CHAT_LINES {
        messages := messages[1..];
      }
    }
  }
}
