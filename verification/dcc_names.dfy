/** File names that may cross the wire: safeFilename of internal/dcc/protocol.go. */
module DccNames {
  predicate IsControl(c: char) {
    c as int <= 0x1F || 0x7F <= c as int <= 0x9F
  }

  predicate SafeFilename(s: string) {
    && s != "" && s != "." && s != ".."
    && forall k :: 0 <= k < |s| ==> !IsControl(s[k]) && s[k] != '/' && s[k] != '\\'
  }
}
