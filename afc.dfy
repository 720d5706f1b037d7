/** What the device's file service (AFC, or house arrest on top of it)
    returns from `stat`: a dictionary that normally holds `st_ifmt`, the file
    type as a string such as "S_IFREG" or "S_IFDIR", and `st_size`. Either key
    may be absent; the scripts read them with `[...]` or `.get`. */
module Afc {
  import opened Common

  const RegularFile := "S_IFREG"
  const Directory := "S_IFDIR"

  datatype Stat = Stat(ifmt: Option<string>, size: Option<int>)
}
