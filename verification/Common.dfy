/** Types and facts shared by every module. */
module Common {
  datatype Option<+T> = None | Some(value: T)

  predicate Distinct<T(==)>(items: seq<T>) {
    forall i, k | 0 <= i < k < |items| :: items[i] != items[k]
  }

  lemma Member<T>(items: set<T>) returns (item: T)
    requires items != {}
    ensures item in items
  {
    item :| item in items;
  }

  lemma Fewer<T>(a: set<T>, b: set<T>)
    requires a <= b
    ensures |a| <= |b|
  {
    assert b == a + (b - a);
  }

  // --- Python string helpers ---------------------------------------------------

  /** The characters `str.strip` removes. */
  predicate IsSpace(c: char) {
    var n := c as int;
    || 0x09 <= n <= 0x0D || 0x1C <= n <= 0x20 || n == 0x85 || n == 0xA0 || n == 0x1680
    || 0x2000 <= n <= 0x200A || n == 0x2028 || n == 0x2029 || n == 0x202F || n == 0x205F || n == 0x3000
  }

  /** The 29 characters of which `str.isspace` is true. */
  lemma SpacesAre(c: char)
    ensures IsSpace(c) <==>
              c as int in {
                9, 10, 11, 12, 13, 28, 29, 30, 31, 32, 133, 160, 5760, 8192, 8193, 8194, 8195, 8196, 8197, 8198, 8199,
                8200, 8201, 8202, 8232, 8233, 8239, 8287, 12288}
  {
  }

  /** `not s.strip()` */
  predicate IsBlank(s: string) {
    forall i | 0 <= i < |s| :: IsSpace(s[i])
  }

  /** `s.strip()` */
  function Strip(s: string): string {
    if s == "" then ""
    else if IsSpace(s[0]) then Strip(s[1..])
    else if IsSpace(s[|s| - 1]) then Strip(s[..|s| - 1])
    else s
  }

  lemma BlankMore(c: char, s: string)
    requires IsSpace(c) && IsBlank(s)
    ensures IsBlank([c] + s) && IsBlank(s + [c])
  {
    hide IsSpace;
  }

  lemma LongerFront(c: char, before: string, kept: string, after: string)
    ensures [c] + (before + kept + after) == ([c] + before) + kept + after
  {
  }

  lemma LongerEnd(before: string, kept: string, after: string, c: char)
    ensures (before + kept + after) + [c] == before + kept + (after + [c])
  {
  }

  /** Stripping removes blank ends and nothing else. */
  lemma {:induction false} StripMeans(s: string) returns (before: string, after: string)
    ensures s == before + Strip(s) + after && IsBlank(before) && IsBlank(after)
    ensures Strip(s) != "" ==> !IsSpace(Strip(s)[0]) && !IsSpace(Strip(s)[|Strip(s)| - 1])
    decreases |s|
  {
    hide IsSpace, IsBlank;
    before, after := "", "";
    NothingIsBlank();
    if s != "" && IsSpace(s[0]) {
      before, after := StripMeans(s[1..]);
      BlankMore(s[0], before);
      LongerFront(s[0], before, Strip(s[1..]), after);
      before := [s[0]] + before;
    } else if s != "" && IsSpace(s[|s| - 1]) {
      before, after := StripMeans(s[..|s| - 1]);
      BlankMore(s[|s| - 1], after);
      LongerEnd(before, Strip(s[..|s| - 1]), after, s[|s| - 1]);
      after := after + [s[|s| - 1]];
    }
  }

  lemma NothingIsBlank()
    ensures IsBlank("")
  {
  }
}
