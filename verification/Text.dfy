/** Blanks at the ends of a text. */
module Text {
  predicate IsBlank(c: char) {
    c == ' ' || c == '\t' || c == '\n' || c == '\r'
  }

  predicate HasText(s: string) {
    exists i :: 0 <= i < |s| && !IsBlank(s[i])
  }

  function Strip(s: string): (r: string)
    ensures |r| <= |s|
    ensures r != "" ==> !IsBlank(r[0]) && !IsBlank(r[|r| - 1])
    ensures s != "" && !IsBlank(s[0]) && !IsBlank(s[|s| - 1]) ==> r == s
  {
    if s == "" then ""
    else if IsBlank(s[0]) then Strip(s[1..])
    else if IsBlank(s[|s| - 1]) then Strip(s[..|s| - 1])
    else s
  }
}
