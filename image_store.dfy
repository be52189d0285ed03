/** The client-side image store: two lists, a search term and two flags, updated by actions. */
module ImageStore {
  import opened Text
  import opened Types
  import Seqs

  /** The store's `ImageData` has exactly the keys of a `Meme`. */
  type ImageData = Meme

  /** The search predicate: the lower-cased `filename` or `originalName` includes the lower-cased term. */
  predicate MatchesTerm(image: ImageData, term: string) {
    var needle := ToLower(term);
    Contains(ToLower(image.filename.GetOr("")), needle) || Contains(ToLower(image.originalName), needle)
  }

  function Matcher(term: string): ImageData -> bool {
    (image: ImageData) => MatchesTerm(image, term)
  }

  /** What `searchImages(term)` stores in `filteredImages`. */
  function SearchResult(images: seq<ImageData>, term: string): seq<ImageData> {
    if IsBlank(term) then images else Seqs.Filter(images, Matcher(term))
  }

  /** A blank term shows every image; any other term shows exactly the matching images, in order, each copy kept. */
  lemma SearchResultSpec(images: seq<ImageData>, term: string)
    ensures IsBlank(term) ==> SearchResult(images, term) == images
    ensures !IsBlank(term) ==> Seqs.IsSubsequence(SearchResult(images, term), images)
    ensures !IsBlank(term) ==> forall x ::
      multiset(SearchResult(images, term))[x] == if MatchesTerm(x, term) then multiset(images)[x] else 0
  {
    if !IsBlank(term) {
      Seqs.FilterIsSubsequence(images, Matcher(term));
      forall x ensures multiset(SearchResult(images, term))[x] == if MatchesTerm(x, term) then multiset(images)[x] else 0 {
        Seqs.FilterMultiplicity(images, Matcher(term), x);
      }
    }
  }

  /** The empty term matches every image. */
  lemma EmptyTermMatchesAll(image: ImageData)
    ensures MatchesTerm(image, "")
  {
  }

  /** Searching is blind to the case of ASCII letters in the term. */
  lemma SearchIgnoresCase(images: seq<ImageData>, term: string)
    ensures SearchResult(images, ToLower(term)) == SearchResult(images, term)
  {
    if !IsBlank(term) {
      var i :| 0 <= i < |term| && !IsTrimmable(term[i]);
      assert !IsTrimmable(ToLower(term)[i]);
    }
    ToLowerIdempotent(term);
    Seqs.FilterCongruent(images, Matcher(ToLower(term)), Matcher(term));
  }

  /** Removing an id commutes with searching. */
  lemma RemoveCommutesWithSearch(images: seq<ImageData>, term: string, id: string)
    ensures RemoveById(SearchResult(images, term), id) == SearchResult(RemoveById(images, id), term)
  {
    if !IsBlank(term) {
      Seqs.FilterCommutes(images, Matcher(term), IdIsNot(id));
    }
  }

  class Store {
    var images: seq<ImageData>
    var filteredImages: seq<ImageData>
    var searchTerm: string
    var loading: bool
    var uploading: bool

    /** `filteredImages` shows the current search over the current images. */
    ghost predicate Consistent()
      reads this
    {
      filteredImages == SearchResult(images, searchTerm)
    }

    /** The initial state. */
    constructor()
      ensures images == [] && filteredImages == [] && searchTerm == ""
      ensures !loading && !uploading
      ensures Consistent()
    {
      images, filteredImages, searchTerm := [], [], "";
      loading, uploading := false, false;
    }

    /** `setImages(list)`: both lists become `list`; the search term is not reapplied. */
    method SetImages(list: seq<ImageData>)
      modifies this
      ensures images == list && filteredImages == list
      ensures searchTerm == old(searchTerm) && loading == old(loading) && uploading == old(uploading)
      ensures IsBlank(searchTerm) ==> Consistent()
    {
      images, filteredImages := list, list;
    }

    /** `addImage(image)`: prepend, then show the current search over the new list. */
    method AddImage(image: ImageData)
      modifies this
      ensures images == [image] + old(images)
      ensures searchTerm == "" ==> filteredImages == images
      ensures searchTerm != "" ==> filteredImages == SearchResult(images, searchTerm)
      ensures searchTerm == old(searchTerm) && loading == old(loading) && uploading == old(uploading)
      ensures Consistent()
    {
      var newImages := [image] + images;
      images := newImages;
      if searchTerm != "" {
        SearchImages(searchTerm);
      } else {
        filteredImages := newImages;
        assert IsBlank(searchTerm);
      }
    }

    /** `updateImage(id, updates)`: overlay the patch on every element with that id, in both lists. */
    method UpdateImage(id: string, updates: MemePatch)
      modifies this
      ensures images == UpdateById(old(images), id, updates)
      ensures filteredImages == UpdateById(old(filteredImages), id, updates)
      ensures |images| == |old(images)| && |filteredImages| == |old(filteredImages)|
      ensures searchTerm == old(searchTerm) && loading == old(loading) && uploading == old(uploading)
    {
      images := UpdateById(images, id, updates);
      filteredImages := UpdateById(filteredImages, id, updates);
    }

    /** `removeImage(id)`: drop every element with that id from both lists. */
    method RemoveImage(id: string)
      modifies this
      ensures images == RemoveById(old(images), id)
      ensures filteredImages == RemoveById(old(filteredImages), id)
      ensures forall x :: x in images ==> x.id != id
      ensures forall x :: x in filteredImages ==> x.id != id
      ensures Seqs.IsSubsequence(images, old(images)) && Seqs.IsSubsequence(filteredImages, old(filteredImages))
      ensures searchTerm == old(searchTerm) && loading == old(loading) && uploading == old(uploading)
      ensures old(Consistent()) ==> Consistent()
    {
      RemoveByIdSpec(images, id);
      RemoveByIdSpec(filteredImages, id);
      RemoveCommutesWithSearch(images, searchTerm, id);
      images := RemoveById(images, id);
      filteredImages := RemoveById(filteredImages, id);
    }

    /** `setSearchTerm(term)`: only the term changes; nothing is re-filtered. */
    method SetSearchTerm(term: string)
      modifies this
      ensures searchTerm == term
      ensures images == old(images) && filteredImages == old(filteredImages)
      ensures loading == old(loading) && uploading == old(uploading)
    {
      searchTerm := term;
    }

    /** `setFilteredImages(list)` */
    method SetFilteredImages(list: seq<ImageData>)
      modifies this
      ensures filteredImages == list
      ensures images == old(images) && searchTerm == old(searchTerm)
      ensures loading == old(loading) && uploading == old(uploading)
    {
      filteredImages := list;
    }

    /** `setLoading(flag)` */
    method SetLoading(flag: bool)
      modifies this
      ensures loading == flag
      ensures images == old(images) && filteredImages == old(filteredImages)
      ensures searchTerm == old(searchTerm) && uploading == old(uploading)
    {
      loading := flag;
    }

    /** `setUploading(flag)` */
    method SetUploading(flag: bool)
      modifies this
      ensures uploading == flag
      ensures images == old(images) && filteredImages == old(filteredImages)
      ensures searchTerm == old(searchTerm) && loading == old(loading)
    {
      uploading := flag;
    }

    /** `searchImages(term)`: store the term and show the images it selects. */
    method SearchImages(term: string)
      modifies this
      ensures searchTerm == term
      ensures IsBlank(term) ==> filteredImages == images
      ensures !IsBlank(term) ==> Seqs.IsSubsequence(filteredImages, images)
      ensures !IsBlank(term) ==> forall x ::
        multiset(filteredImages)[x] == if MatchesTerm(x, term) then multiset(images)[x] else 0
      ensures images == old(images) && loading == old(loading) && uploading == old(uploading)
      ensures Consistent()
    {
      SearchResultSpec(images, term);
      if IsBlank(term) {
        filteredImages, searchTerm := images, term;
        return;
      }
      var filtered := Seqs.Filter(images, Matcher(term));
      filteredImages, searchTerm := filtered, term;
    }

    /** `clearSearch()`: empty term, every image shown. */
    method ClearSearch()
      modifies this
      ensures searchTerm == "" && filteredImages == images
      ensures images == old(images) && loading == old(loading) && uploading == old(uploading)
      ensures Consistent()
    {
      searchTerm, filteredImages := "", images;
      assert IsBlank(searchTerm);
    }
  }

  /** Adding an image whose id is new and then removing that id restores the previous image list. */
  lemma AddThenRemove(images: seq<ImageData>, image: ImageData)
    requires forall x :: x in images ==> x.id != image.id
    ensures RemoveById([image] + images, image.id) == images
  {
    Seqs.FilterPrepend(image, images, IdIsNot(image.id));
    RemoveAbsentId(images, image.id);
  }
}
