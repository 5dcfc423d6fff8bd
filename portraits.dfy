// The default portraits of components/UploadSection.tsx. Each constant keeps the first 180
// characters of the source's data URL: the stat generator reads only the first 100, and the
// two constants first differ at character 176.
module Portraits {
  import opened StatGen

  const DefaultAvatarP1: string := "data:image/svg+xml;base64,PHN2ZyB4bWxucz0iaHR0cDovL3d3dy53My5vcmcvMjAwMC9zdmciIHZpZXdCb3g9IjAgMCAyMDAgMjAwIiBmaWxsPSJub25lIj4KICA8ZGVmcz4KICAgIDxsaW5lYXJHcmFkaWVudCBpZD0iZ3JhZDEiIH"

  const DefaultAvatarP2: string := "data:image/svg+xml;base64,PHN2ZyB4bWxucz0iaHR0cDovL3d3dy53My5vcmcvMjAwMC9zdmciIHZpZXdCb3g9IjAgMCAyMDAgMjAwIiBmaWxsPSJub25lIj4KICA8ZGVmcz4KICAgIDxsaW5lYXJHcmFkaWVudCBpZD0iZ3JhZDIiIH"

  /** The two default portraits agree on their first 100 characters, which is all the stat
      generator reads: two players who upload nothing get the same stats apart from the name. */
  lemma DefaultPortraitsTie()
    ensures AnalyzeFighters(DefaultAvatarP1, DefaultAvatarP2).0 ==
            AnalyzeFighters(DefaultAvatarP1, DefaultAvatarP2).1.(name := "Player 1")
  {
    assert DefaultAvatarP1[..100] == DefaultAvatarP2[..100];
    SamePrefixSameStats(DefaultAvatarP1, DefaultAvatarP2, "Player 1");
  }
}
