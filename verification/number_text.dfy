/** How numbers are written: digits that say what is left over when the number is divided by its base, last one last. */
module NumberText {
  const DIGITS: string := "0123456789"
  const LOWER_HEX: string := "0123456789abcdef"
  const UPPER_HEX: string := "0123456789ABCDEF"

  /** s writes n in base ten, leading zeros allowed. */
  predicate DecimalText(s: string, n: nat)
    decreases |s|
  {
    if s == "" then n == 0 else s[|s| - 1] == DIGITS[n % 10] && DecimalText(s[..|s| - 1], n / 10)
  }

  /** s writes n in base sixteen, with letters of either case and leading zeros allowed. */
  predicate HexText(s: string, n: nat)
    decreases |s|
  {
    if s == "" then n == 0
    else (s[|s| - 1] == LOWER_HEX[n % 16] || s[|s| - 1] == UPPER_HEX[n % 16]) && HexText(s[..|s| - 1], n / 16)
  }
}
