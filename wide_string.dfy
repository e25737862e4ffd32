/** std::wstring reduced to its characters, enough to build a mutable command-line buffer. */
module WideStrings {

  class WideString {
    var chars: seq<char>

    /** Copy-construct from a string view. */
    constructor (view: seq<char>)
      ensures chars == view
    {
      chars := view;
    }

    /** push_back: append one character in place. */
    method PushBack(c: char)
      modifies this
      ensures chars == old(chars) + [c]
    {
      chars := chars + [c];
    }
  }
}
