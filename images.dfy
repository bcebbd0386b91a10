/** `count_images`: image elements plus inline styles that set a background image. */
module Images {
  import opened Text
  import opened Page

  /** The number of style values containing `background-image`. The source's
      test is a case-sensitive `in`, not a regular expression. */
  function BackgroundImages(styles: seq<string>): (n: nat)
    ensures n <= |styles|
    ensures n == 0 <==> forall i :: 0 <= i < |styles| ==> !Contains(styles[i], "background-image")
    ensures n == |styles| <==> forall i :: 0 <= i < |styles| ==> Contains(styles[i], "background-image")
  {
    if styles == [] then 0
    else
      var init := styles[..|styles| - 1];
      assert forall i :: 0 <= i < |init| ==> init[i] == styles[i];
      BackgroundImages(init) + if Contains(styles[|styles| - 1], "background-image") then 1 else 0
  }

  /** Counting distributes over concatenation: every style value counts on its
      own, whatever surrounds it. */
  lemma {:induction false} BackgroundImagesAppend(a: seq<string>, b: seq<string>)
    ensures BackgroundImages(a + b) == BackgroundImages(a) + BackgroundImages(b)
    decreases |b|
  {
    if b == [] {
      assert a + b == a;
    } else {
      var b' := b[..|b| - 1];
      BackgroundImagesAppend(a, b');
      assert (a + b)[..|a + b| - 1] == a + b';
    }
  }

  /** The number of images on one page: `len(img_tags) + background_images`. */
  function CountImages(r: Response): (n: nat)
    ensures r.imgTags <= n <= r.imgTags + |r.styles|
    ensures n == r.imgTags <==> forall i :: 0 <= i < |r.styles| ==> !Contains(r.styles[i], "background-image")
  {
    r.imgTags + BackgroundImages(r.styles)
  }
}
