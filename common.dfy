/** Helpers shared by the screens: optional values, the string and array
    primitives of JavaScript that the event handlers rely on, and circular
    index arithmetic. */
module Common {

  datatype Option<+T> = None | Some(value: T)

  /** The status vocabularies shared by the admin and customer screens. */
  datatype BookingStatus = BookingPending | Confirmed | Completed | Cancelled
  datatype PaymentStatus = PaymentPending | Verified | Rejected

  /** The optional payment fields a booking carries; `None` is an absent field. */
  datatype PaymentInfo = PaymentInfo(
    paymentType: Option<string>, paymentMethod: Option<string>,
    proofUrl: Option<string>, proofFileName: Option<string>,
    amountPaid: Option<real>, remainingBalance: Option<real>,
    paymentStatus: Option<PaymentStatus>,
    uploadedAt: Option<string>, verifiedAt: Option<string>, notes: Option<string>)

  /** A status select: `'all'` or one status value. */
  datatype StatusFilter<S> = All | Only(status: S)

  predicate MatchesStatus<S(==)>(filter: StatusFilter<S>, status: S) {
    filter.All? || filter.status == status
  }

  /** The signed-in account the screens pass around; a field the object lacks is `None`. */
  datatype SessionUser = SessionUser(
    id: int, name: Option<string>, email: Option<string>, phone: Option<string>, role: Option<string>)

  /** `field || fallback` on an optional string: a missing or empty field falls back. */
  function OrElse(field: Option<string>, fallback: string): (r: string)
    ensures field.Some? && field.value != "" ==> r == field.value
    ensures field.None? || field.value == "" ==> r == fallback
    ensures r == fallback || (field.Some? && r == field.value)
    ensures r == "" <==> (field.None? || field.value == "") && fallback == ""
  {
    if field.Some? && field.value != "" then field.value else fallback
  }

  /** The outcome of the new-password checks shared by the registration and
      password-change forms. */
  datatype PasswordVerdict = Mismatch | TooShort | Acceptable

  /** The confirmation is compared first; only a confirmed password is checked
      against the minimum length `min`. */
  function CheckPassword(password: string, confirmation: string, min: nat): (v: PasswordVerdict)
    ensures v == Mismatch <==> password != confirmation
    ensures v == TooShort <==> password == confirmation && |password| < min
    ensures v == Acceptable <==> password == confirmation && |password| >= min
  {
    if password != confirmation then Mismatch
    else if |password| < min then TooShort
    else Acceptable
  }

  // ---------------------------------------------------------------------
  // Strings

  /** String.prototype.toLowerCase, restricted to ASCII letters. */
  function LowerChar(c: char): char {
    if 'A' <= c <= 'Z' then (c as int + 32) as char else c
  }

  function Lower(s: string): (r: string)
    ensures |r| == |s|
    ensures forall i :: 0 <= i < |s| ==> r[i] == LowerChar(s[i])
  {
    seq(|s|, i requires 0 <= i < |s| => LowerChar(s[i]))
  }

  /** String.prototype.toUpperCase, restricted to ASCII letters. */
  function UpperChar(c: char): char {
    if 'a' <= c <= 'z' then (c as int - 32) as char else c
  }

  function Upper(s: string): (r: string)
    ensures |r| == |s|
    ensures forall i :: 0 <= i < |s| ==> r[i] == UpperChar(s[i])
  {
    seq(|s|, i requires 0 <= i < |s| => UpperChar(s[i]))
  }

  /** String.prototype.includes: `needle` occurs in `hay` at some offset. */
  predicate Includes(hay: string, needle: string) {
    needle <= hay || (hay != [] && Includes(hay[1..], needle))
  }

  /** The search used by every list screen: `field.toLowerCase().includes(term.toLowerCase())`. */
  predicate MatchesTerm(field: string, term: string) {
    Includes(Lower(field), Lower(term))
  }

  /** The empty search term matches every field. */
  lemma EmptyTermMatches(field: string)
    ensures MatchesTerm(field, "")
  {
  }

  /** A term matches the field it was taken from, whatever the case of its letters. */
  lemma FieldMatchesItself(field: string)
    ensures MatchesTerm(field, field)
  {
  }

  /** The characters String.prototype.trim removes: white space and line terminators. */
  predicate IsJsWhitespace(c: char) {
    c == '\t' || c == '\n' || c == '\U{000B}' || c == '\U{000C}' || c == '\r' || c == ' ' ||
    c == '\U{00A0}' || c == '\U{1680}' || ('\U{2000}' <= c <= '\U{200A}') ||
    c == '\U{2028}' || c == '\U{2029}' || c == '\U{202F}' || c == '\U{205F}' ||
    c == '\U{3000}' || c == '\U{FEFF}'
  }

  function TrimStart(s: string): string {
    if s != [] && IsJsWhitespace(s[0]) then TrimStart(s[1..]) else s
  }

  function TrimEnd(s: string): string {
    if s != [] && IsJsWhitespace(s[|s| - 1]) then TrimEnd(s[..|s| - 1]) else s
  }

  /** String.prototype.trim. */
  function Trim(s: string): string {
    TrimEnd(TrimStart(s))
  }

  predicate AllWhitespace(s: string) {
    forall i :: 0 <= i < |s| ==> IsJsWhitespace(s[i])
  }

  lemma {:induction false} TrimStartEmpty(s: string)
    ensures TrimStart(s) == [] <==> AllWhitespace(s)
    ensures TrimStart(s) != [] ==> !IsJsWhitespace(TrimStart(s)[0])
    ensures AllWhitespace(s) || TrimStart(s) != []
  {
    if s != [] && IsJsWhitespace(s[0]) {
      TrimStartEmpty(s[1..]);
      assert AllWhitespace(s) <==> AllWhitespace(s[1..]) by {
        if AllWhitespace(s[1..]) {
          forall i | 0 <= i < |s| ensures IsJsWhitespace(s[i]) {
            if i > 0 { assert s[i] == s[1..][i - 1]; }
          }
        }
      }
    }
  }

  lemma {:induction false} TrimEndKeepsNonWhitespaceStart(s: string)
    requires s != [] && !IsJsWhitespace(s[0])
    ensures TrimEnd(s) != []
  {
    if IsJsWhitespace(s[|s| - 1]) {
      TrimEndKeepsNonWhitespaceStart(s[..|s| - 1]);
    }
  }

  /** `text.trim()` is truthy exactly when the text holds a character that is
      not white space: the guard of both "reject payment" dialogs. */
  lemma TrimNonEmptyIff(s: string)
    ensures Trim(s) != [] <==> !AllWhitespace(s)
  {
    TrimStartEmpty(s);
    if TrimStart(s) != [] {
      TrimEndKeepsNonWhitespaceStart(TrimStart(s));
    }
  }

  /** A browser `File`, reduced to what the handlers look at. */
  datatype File = File(name: string, mimeType: string)

  /** The name, email and phone inputs of the two account screens. */
  datatype ContactField = NameField | EmailField | PhoneField

  /** The three inputs of the two change-password forms. */
  datatype PasswordField = CurrentField | NewField | ConfirmField

  /** `file.type.startsWith('image/')`. */
  predicate IsImageType(mime: string) {
    "image/" <= mime
  }

  // ---------------------------------------------------------------------
  // Array.prototype.filter and reduce

  /** Array.prototype.filter: the elements satisfying `p`, in their original order. */
  function Filter<T>(s: seq<T>, p: T -> bool): (r: seq<T>)
    ensures |r| <= |s|
    ensures forall i :: 0 <= i < |r| ==> p(r[i])
    ensures forall x :: x in r ==> x in s && p(x)
    ensures forall x :: x in s && p(x) ==> x in r
  {
    if s == [] then [] else (if p(s[0]) then [s[0]] else []) + Filter(s[1..], p)
  }

  /** `a` is `b` with zero or more elements left out, order kept. */
  lemma FilterCons<T>(x: T, s: seq<T>, p: T -> bool)
    ensures Filter([x] + s, p) == (if p(x) then [x] else []) + Filter(s, p)
  {
    assert ([x] + s)[1..] == s;
  }

  /** Filtering with a predicate that no element meets leaves nothing. */
  lemma {:induction false} FilterKeepsNone<T>(s: seq<T>, p: T -> bool)
    requires forall i :: 0 <= i < |s| ==> !p(s[i])
    ensures Filter(s, p) == []
  {
    if s != [] {
      FilterKeepsNone(s[1..], p);
    }
  }

  /** Two filters can be applied in either order. */
  lemma {:induction false} FilterCommute<T>(s: seq<T>, p: T -> bool, q: T -> bool)
    ensures Filter(Filter(s, p), q) == Filter(Filter(s, q), p)
  {
    if s != [] {
      var x, tl := s[0], s[1..];
      FilterCommute(tl, p, q);
      assert s == [x] + tl;
      FilterCons(x, tl, p);
      FilterCons(x, tl, q);
      if p(x) && q(x) {
        FilterCons(x, Filter(tl, p), q);
        FilterCons(x, Filter(tl, q), p);
      } else if p(x) {
        FilterCons(x, Filter(tl, p), q);
        assert Filter(s, q) == Filter(tl, q);
      } else if q(x) {
        FilterCons(x, Filter(tl, q), p);
        assert Filter(s, p) == Filter(tl, p);
      } else {
        assert Filter(s, p) == Filter(tl, p);
        assert Filter(s, q) == Filter(tl, q);
      }
    }
  }

  predicate IsSubsequence<T(==)>(a: seq<T>, b: seq<T>) {
    if a == [] then true
    else if b == [] then false
    else if a[0] == b[0] then IsSubsequence(a[1..], b[1..])
    else IsSubsequence(a, b[1..])
  }

  lemma {:induction false} FilterIsSubsequence<T>(s: seq<T>, p: T -> bool)
    ensures IsSubsequence(Filter(s, p), s)
  {
    if s != [] {
      FilterIsSubsequence(s[1..], p);
      if p(s[0]) {
        assert Filter(s, p) == [s[0]] + Filter(s[1..], p);
        assert Filter(s, p)[1..] == Filter(s[1..], p);
      } else {
        assert Filter(s, p) == Filter(s[1..], p);
        SubsequenceOfTail(Filter(s[1..], p), s);
      }
    }
  }

  lemma {:induction false} SubsequenceOfTail<T>(a: seq<T>, b: seq<T>)
    requires b != [] && IsSubsequence(a, b[1..])
    ensures IsSubsequence(a, b)
  {
    if a != [] && a[0] == b[0] {
      SubsequenceDropHead(a, b[1..]);
    }
  }

  lemma {:induction false} SubsequenceDropHead<T>(a: seq<T>, b: seq<T>)
    requires a != [] && IsSubsequence(a, b)
    ensures IsSubsequence(a[1..], b)
  {
    if a[0] == b[0] {
      if a[1..] != [] {
        SubsequenceOfTail(a[1..], b);
      }
    } else {
      SubsequenceDropHead(a, b[1..]);
      if a[1..] != [] {
        SubsequenceOfTail(a[1..], b);
      }
    }
  }

  /** Filtering with a predicate that every element meets keeps the whole array. */
  lemma {:induction false} FilterKeepsAll<T>(s: seq<T>, p: T -> bool)
    requires forall i :: 0 <= i < |s| ==> p(s[i])
    ensures Filter(s, p) == s
  {
    if s != [] {
      FilterKeepsAll(s[1..], p);
    }
  }

  lemma {:induction false} FilterAppend<T>(a: seq<T>, b: seq<T>, p: T -> bool)
    ensures Filter(a + b, p) == Filter(a, p) + Filter(b, p)
  {
    if a == [] {
      assert a + b == b;
    } else {
      assert (a + b)[1..] == a[1..] + b;
      FilterAppend(a[1..], b, p);
    }
  }

  /** `s.map((x) => sel(x) ? f(x) : x)`: the id-targeted update every screen uses. */
  function UpdateWhere<T>(s: seq<T>, sel: T -> bool, f: T -> T): (r: seq<T>)
    ensures |r| == |s|
    ensures forall i :: 0 <= i < |s| && !sel(s[i]) ==> r[i] == s[i]
    ensures forall i :: 0 <= i < |s| && sel(s[i]) ==> r[i] == f(s[i])
  {
    if s == [] then [] else [if sel(s[0]) then f(s[0]) else s[0]] + UpdateWhere(s[1..], sel, f)
  }

  /** Array.prototype.reduce((sum, x) => sum + f(x), 0). */
  function Sum<T>(s: seq<T>, f: T -> real): real {
    if s == [] then 0.0 else f(s[0]) + Sum(s[1..], f)
  }

  // ---------------------------------------------------------------------
  // Circular index arithmetic

  /** JavaScript's `%`, which truncates toward zero, for a positive divisor: the
      remainder differs from `a` by a multiple of `n`, has the sign of `a` and is
      smaller than `n` in size. */
  function JsRem(a: int, n: int): (r: int)
    requires n > 0
    ensures (a - r) % n == 0
    ensures a >= 0 ==> 0 <= r < n
    ensures a < 0 ==> -n < r <= 0
  {
    if a >= 0 then
      MultipleLeft(a, n);
      a % n
    else
      MultipleLeft(-a, n);
      MultipleNegated((-a) - (-a) % n, n);
      -((-a) % n)
  }

  /** `a - a % n` is a multiple of `n`. */
  lemma MultipleLeft(a: int, n: int)
    requires n > 0
    ensures (a - a % n) % n == 0
  {
    assert a - a % n == (a / n) * n;
    ModOfMultiple(a / n, n);
  }

  /** The negation of a multiple of `n` is a multiple of `n`. */
  lemma MultipleNegated(m: int, n: int)
    requires n > 0 && m % n == 0
    ensures (-m) % n == 0
  {
    assert m == (m / n) * n;
    assert -m == (-(m / n)) * n;
    ModOfMultiple(-(m / n), n);
  }

  /** `q * n` leaves no remainder: the remainder `r` of `q * n` satisfies
      `(q - q') * n == r` for the quotient `q'`, and `0 <= r < n` forces `q == q'`. */
  lemma ModOfMultiple(q: int, n: int)
    requires n > 0
    ensures (q * n) % n == 0
  {
    var m := q * n;
    var q', r := m / n, m % n;
    assert m == q' * n + r;
    var d := q - q';
    assert d * n == r by {
      assert q * n - q' * n == (q - q') * n;
    }
    ScaledAwayFromZero(d, n);
  }

  /** A non-zero multiple of `n` is at least `n` in size. */
  lemma ScaledAwayFromZero(d: int, n: int)
    requires n > 0
    ensures d >= 1 ==> d * n >= n
    ensures d <= -1 ==> d * n <= -n
  {
    if d >= 1 {
      assert d * n == (d - 1) * n + n;
    } else if d <= -1 {
      assert d * n == -((-d - 1) * n) - n;
    }
  }

  /** `(prev + 1) % n`. */
  function Next(i: int, n: int): int
    requires n > 0
  {
    JsRem(i + 1, n)
  }

  /** `(prev - 1 + n) % n`. */
  function Previous(i: int, n: int): int
    requires n > 0
  {
    JsRem(i - 1 + n, n)
  }

  lemma ModOfSmall(a: int, n: int)
    requires 0 <= a < 2 * n
    ensures a % n == if a < n then a else a - n
  {
    if a < n {
      assert a == 0 * n + a;
    } else {
      assert a == 1 * n + (a - n);
    }
  }

  /** From a valid index, next and previous stay valid and undo each other. */
  lemma NextPreviousInverse(i: int, n: int)
    requires n > 0 && 0 <= i < n
    ensures Next(i, n) == if i + 1 < n then i + 1 else 0
    ensures Previous(i, n) == if i > 0 then i - 1 else n - 1
    ensures 0 <= Next(i, n) < n && 0 <= Previous(i, n) < n
    ensures Previous(Next(i, n), n) == i
    ensures Next(Previous(i, n), n) == i
  {
    ModOfSmall(i + 1, n);
    ModOfSmall(i - 1 + n, n);
    ModOfSmall(Next(i, n) - 1 + n, n);
    ModOfSmall(Previous(i, n) + 1, n);
  }

  // ---------------------------------------------------------------------
  // Initials: `name.split(' ').map((n) => n[0]).join('')`

  /** String.prototype.split(' '): the pieces between single spaces, with an
      empty piece wherever two spaces meet or the string begins or ends with one. */
  function SplitSpaces(s: string): (r: seq<string>)
    ensures |r| == Spaces(s) + 1
    ensures forall i :: 0 <= i < |r| ==> ' ' !in r[i]
  {
    if s == [] then [""]
    else
      var rest := SplitSpaces(s[1..]);
      if s[0] == ' ' then [""] + rest else [[s[0]] + rest[0]] + rest[1..]
  }

  /** The number of spaces in `s`. */
  function Spaces(s: string): nat {
    if s == [] then 0 else (if s[0] == ' ' then 1 else 0) + Spaces(s[1..])
  }

  /** `pieces.join(' ')`. */
  function JoinSpaces(pieces: seq<string>): string {
    if pieces == [] then ""
    else if |pieces| == 1 then pieces[0]
    else pieces[0] + " " + JoinSpaces(pieces[1..])
  }

  /** Joining the pieces with single spaces gives the string back. */
  lemma {:induction false} JoinSplitSpaces(s: string)
    ensures JoinSpaces(SplitSpaces(s)) == s
  {
    if s != [] {
      JoinSplitSpaces(s[1..]);
      var rest := SplitSpaces(s[1..]);
      if s[0] == ' ' {
        assert SplitSpaces(s) == [""] + rest;
        assert s == "" + " " + JoinSpaces(rest);
      } else {
        if |rest| == 1 {
          assert s == [s[0]] + rest[0];
        } else {
          assert JoinSpaces(rest) == rest[0] + " " + JoinSpaces(rest[1..]);
          assert s == [s[0]] + rest[0] + " " + JoinSpaces(rest[1..]);
        }
      }
    }
  }

  /** Splitting a join of space-free pieces gives the pieces back. */
  lemma {:induction false} SplitJoinSpaces(pieces: seq<string>)
    requires pieces != []
    requires forall i :: 0 <= i < |pieces| ==> ' ' !in pieces[i]
    ensures SplitSpaces(JoinSpaces(pieces)) == pieces
  {
    if |pieces| == 1 {
      SplitSpaceFree(pieces[0], []);
    } else {
      SplitJoinSpaces(pieces[1..]);
      SplitSpaceFree(pieces[0], pieces[1..]);
    }
  }

  /** A space-free word followed by a space and a join splits into the word and the
      join's pieces; a space-free word alone splits into itself. */
  lemma {:induction false} SplitSpaceFree(w: string, tail: seq<string>)
    requires ' ' !in w
    requires tail != [] ==> SplitSpaces(JoinSpaces(tail)) == tail
    ensures tail == [] ==> SplitSpaces(w) == [w]
    ensures tail != [] ==> SplitSpaces(w + " " + JoinSpaces(tail)) == [w] + tail
  {
    if w == [] {
      if tail != [] {
        assert w + " " + JoinSpaces(tail) == " " + JoinSpaces(tail);
        assert (" " + JoinSpaces(tail))[1..] == JoinSpaces(tail);
      }
    } else {
      assert ' ' !in w[1..] by {
        forall j | 0 <= j < |w[1..]| ensures w[1..][j] != ' ' {
          assert w[1..][j] == w[j + 1];
        }
      }
      SplitSpaceFree(w[1..], tail);
      assert w[0] != ' ' by { assert w[0] in w; }
      assert [w[0]] + w[1..] == w;
      if tail == [] {
        assert SplitSpaces(w) == [[w[0]] + SplitSpaces(w[1..])[0]] + SplitSpaces(w[1..])[1..];
      } else {
        var s := w + " " + JoinSpaces(tail);
        var rest := SplitSpaces(w[1..] + " " + JoinSpaces(tail));
        assert s[0] == w[0] && s[1..] == w[1..] + " " + JoinSpaces(tail);
        assert rest == [w[1..]] + tail;
        assert SplitSpaces(s) == [[w[0]] + rest[0]] + rest[1..];
      }
    }
  }

  /** `words.map((n) => n[0]).join('')`: an empty word contributes `undefined`,
      which `join` writes as nothing. */
  function JoinFirsts(words: seq<string>): string {
    if words == [] then ""
    else (if words[0] == "" then "" else [words[0][0]]) + JoinFirsts(words[1..])
  }

  function Initials(name: string): string {
    JoinFirsts(SplitSpaces(name))
  }

  /** Reference definition: scanning left to right, the characters that are not a
      space and stand at the start of the string or right after a space. */
  function WordStarts(s: string, atStart: bool): string {
    if s == [] then ""
    else (if s[0] != ' ' && atStart then [s[0]] else "") + WordStarts(s[1..], s[0] == ' ')
  }

  lemma {:induction false} InitialsAreWordStarts'(s: string)
    ensures JoinFirsts(SplitSpaces(s)) == WordStarts(s, true)
    ensures JoinFirsts(SplitSpaces(s)[1..]) == WordStarts(s, false)
  {
    if s != [] {
      InitialsAreWordStarts'(s[1..]);
      var rest := SplitSpaces(s[1..]);
      if s[0] == ' ' {
        assert SplitSpaces(s)[1..] == rest;
      } else {
        var words := [[s[0]] + rest[0]] + rest[1..];
        assert SplitSpaces(s) == words;
        assert words[1..] == rest[1..];
        assert JoinFirsts(words) == [s[0]] + JoinFirsts(words[1..]);
      }
    }
  }

  lemma {:induction false} WordStartsBounds(s: string, atStart: bool)
    ensures |WordStarts(s, atStart)| <= |s|
    ensures forall i :: 0 <= i < |WordStarts(s, atStart)| ==> WordStarts(s, atStart)[i] != ' ' && WordStarts(s, atStart)[i] in s
  {
    if s != [] {
      WordStartsBounds(s[1..], s[0] == ' ');
    }
  }

  /** The initials are the first character of every non-empty space-separated word:
      never a space, never longer than the name. */
  lemma InitialsAreWordStarts(name: string)
    ensures Initials(name) == WordStarts(name, true)
    ensures |Initials(name)| <= |name|
    ensures forall i :: 0 <= i < |Initials(name)| ==> Initials(name)[i] != ' ' && Initials(name)[i] in name
  {
    InitialsAreWordStarts'(name);
    WordStartsBounds(name, true);
  }
}
