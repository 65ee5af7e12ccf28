/** Character classes shared by the text modules. */
module Chars {
  /** The characters with the Unicode White_Space property. */
  predicate White(c: char) {
    var n := c as int;
    0x9 <= n <= 0xD || n in {0x20, 0x85, 0xA0, 0x1680, 0x2028, 0x2029, 0x202F, 0x205F, 0x3000} || 0x2000 <= n <= 0x200A
  }
}
