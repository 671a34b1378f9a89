/** File inputs: a picked `FileList` is modelled as an optional sequence of files of type `F`. */
module FileInputs {
  import opened Wrappers

  /** `files?.[0]`: the first picked file, if there is one. */
  function FirstFile<F>(files: Option<seq<F>>): (r: Option<F>)
    ensures r.Some? <==> files.Some? && |files.value| > 0
    ensures r.Some? ==> r.value == files.value[0]
  {
    if files.Some? && |files.value| > 0 then Some(files.value[0]) else None
  }
}
