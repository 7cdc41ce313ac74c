/** The detail overlay: its two pieces of local state (`isTagging`,
    `generatedTags`), the tag-generation handler that updates them, and what
    the overlay shows of the tags. The awaited `generateAdTags` promise is an
    input: it either resolves to a list or rejects. */
module AdDetail {
  import opened Types

  /** How the awaited call settled. */
  datatype TagPromise = Resolved(tags: seq<string>) | Rejected

  /** Shown in place of generated tags when the call rejects. */
  const ErrorGeneratingTags: seq<string> := ["Error generating tags"]

  /** What `generatedTags` holds once the call has settled: the resolved
      list, or the error placeholder. */
  function SettledTags(result: TagPromise): seq<string> {
    match result
    case Resolved(tags) => tags
    case Rejected => ErrorGeneratingTags
  }

  /** `[...ad.tags, ...generatedTags]`. */
  function AllTags(ad: Ad, generated: seq<string>): (all: seq<string>)
    ensures |all| == |ad.tags| + |generated|
    ensures all[..|ad.tags|] == ad.tags && all[|ad.tags|..] == generated
  {
    ad.tags + generated
  }

  /** The tag section as shown: the tags, whether the "No tags yet"
      placeholder replaces them, and the button's state and caption. */
  datatype TagsView = TagsView(tags: seq<string>, showPlaceholder: bool, buttonDisabled: bool, buttonCaption: string)

  /** The overlay renders nothing without an ad or an advertiser. */
  function RenderTags(ad: Option<Ad>, advertiser: Option<Advertiser>, isTagging: bool, generated: seq<string>)
    : (view: Option<TagsView>)
    ensures view.None? <==> ad.None? || advertiser.None?
    ensures view.Some? ==>
              && view.value.tags == AllTags(ad.value, generated)
              && (view.value.showPlaceholder <==> ad.value.tags == [] && generated == [])
              && view.value.buttonDisabled == isTagging
  {
    if ad.None? || advertiser.None? then None
    else
      var all := AllTags(ad.value, generated);
      Some(TagsView(all, |all| == 0, isTagging, if isTagging then "Analyzing..." else "Generate Tags"))
  }

  /** The identity React would key the overlay on: the selected ad's id. */
  function KeyOf(ad: Option<Ad>): Option<string> {
    if ad.Some? then Some(ad.value.id) else None
  }

  class AdDetailModal {
    var ad: Option<Ad>
    var advertiser: Option<Advertiser>
    var isTagging: bool
    var generatedTags: seq<string>

    /** Mounting: not tagging, no generated tags. */
    constructor (ad: Option<Ad>, advertiser: Option<Advertiser>)
      ensures this.ad == ad && this.advertiser == advertiser
      ensures !isTagging && generatedTags == []
    {
      this.ad := ad;
      this.advertiser := advertiser;
      isTagging := false;
      generatedTags := [];
    }

    function View(): Option<TagsView>
      reads this
    {
      RenderTags(ad, advertiser, isTagging, generatedTags)
    }

    /** A re-render with new props, as the source mounts the overlay (once,
        without a key): the props change and the local state is kept. */
    method ReceiveProps(ad: Option<Ad>, advertiser: Option<Advertiser>)
      modifies this
      ensures this.ad == ad && this.advertiser == advertiser
      ensures isTagging == old(isTagging) && generatedTags == old(generatedTags)
    {
      this.ad := ad;
      this.advertiser := advertiser;
    }

    /** A re-render with the overlay keyed on the ad's id: a different ad
        mounts a fresh overlay, the same ad keeps its state. */
    method ReceivePropsKeyed(ad: Option<Ad>, advertiser: Option<Advertiser>)
      modifies this
      ensures this.ad == ad && this.advertiser == advertiser
      ensures KeyOf(ad) == KeyOf(old(this.ad)) ==>
                isTagging == old(isTagging) && generatedTags == old(generatedTags)
      ensures KeyOf(ad) != KeyOf(old(this.ad)) ==> !isTagging && generatedTags == []
    {
      if KeyOf(ad) != KeyOf(this.ad) {
        isTagging := false;
        generatedTags := [];
      }
      this.ad := ad;
      this.advertiser := advertiser;
    }

    /** `setIsTagging(true); setGeneratedTags([])`. */
    method BeginTagging()
      requires ad.Some?
      modifies this
      ensures ad == old(ad) && advertiser == old(advertiser)
      ensures isTagging && generatedTags == []
    {
      isTagging := true;
      generatedTags := [];
    }

    /** The `try`/`catch`/`finally` after the await: the result or the error
        placeholder, and the busy flag cleared either way. */
    method FinishTagging(result: TagPromise)
      modifies this
      ensures ad == old(ad) && advertiser == old(advertiser)
      ensures !isTagging && generatedTags == SettledTags(result)
    {
      match result {
        case Resolved(tags) => generatedTags := tags;
        case Rejected => generatedTags := ErrorGeneratingTags;
      }
      isTagging := false;
    }

    /** `handleGenerateTags`, run to completion: nothing without an ad;
        otherwise the start step, then the finish step. */
    method HandleGenerateTags(result: TagPromise)
      modifies this
      ensures ad == old(ad) && advertiser == old(advertiser)
      ensures old(ad).None? ==> isTagging == old(isTagging) && generatedTags == old(generatedTags)
      ensures old(ad).Some? ==> !isTagging && generatedTags == SettledTags(result)
    {
      if ad.None? {
        return;
      }
      BeginTagging();
      FinishTagging(result);
    }

    /** A click on "Generate Tags": the button exists only while the overlay
        renders, and is disabled while tagging. */
    method ClickGenerateTags(result: TagPromise)
      modifies this
      ensures ad == old(ad) && advertiser == old(advertiser)
      ensures old(View()).Some? && !old(isTagging) ==> !isTagging && generatedTags == SettledTags(result)
      ensures old(View()).None? || old(isTagging) ==>
                isTagging == old(isTagging) && generatedTags == old(generatedTags)
    {
      if View().Some? && !isTagging {
        HandleGenerateTags(result);
      }
    }
  }

  /** As mounted by the source: generate tags for ad `a`, close the
      overlay, open it on ad `b`: the tags generated for `a` are shown after
      `b`'s own. */
  method StaleTagsAsWritten(a: Ad, b: Ad, adv: Advertiser, generated: seq<string>) returns (shown: seq<string>)
    ensures shown == b.tags + generated
  {
    var modal := new AdDetailModal(Some(a), Some(adv));
    modal.ClickGenerateTags(Resolved(generated));
    modal.ReceiveProps(None, None);
    modal.ReceiveProps(Some(b), Some(adv));
    var view := modal.View();
    shown := view.value.tags;
  }

  /** Keyed on the ad, the same steps show only `b`'s own tags. */
  method FreshTagsKeyed(a: Ad, b: Ad, adv: Advertiser, generated: seq<string>) returns (shown: seq<string>)
    ensures shown == b.tags
  {
    var modal := new AdDetailModal(Some(a), Some(adv));
    modal.ClickGenerateTags(Resolved(generated));
    modal.ReceivePropsKeyed(None, None);
    modal.ReceivePropsKeyed(Some(b), Some(adv));
    var view := modal.View();
    shown := view.value.tags;
    assert shown == b.tags + [];
  }
}
