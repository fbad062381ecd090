/**
 * The rich-text editor wrapper (src/components/TiptapEditor.jsx): its
 * starting content, the link command built from the selected text, and the
 * image-upload guard with its `isImageUploading` flag. The editing engine
 * itself is a library and is not modelled.
 */
module TiptapEditor {
  import opened Js
  import opened Text
  import opened Records

  /** The content shown when no `initialContent` is given. */
  const Placeholder := "<p>Start writing your blog post...</p>"
  const LinkBase := "https://example.com/"
  const ImageMimePrefix := "image/"
  const NotAnImageAlert := "Please upload an image file"
  const ReadErrorAlert := "Error reading file"

  /** `initialContent || '<p>Start writing your blog post...</p>'`. */
  function InitialContent(initialContent: Field): (r: string)
    ensures r != ""
    ensures Truthy(initialContent) ==> r == initialContent.value
    ensures !Truthy(initialContent) ==> r == Placeholder
  {
    OrElse(initialContent, Placeholder)
  }

  // ---------------------------------------------------------------------
  // `text.toLowerCase().replace(/\s+/g, '-')`
  // ---------------------------------------------------------------------

  /** Each maximal run of white space becomes one '-'. */
  function CollapseSpaces(s: string): (r: string)
    ensures |r| <= |s|
    ensures forall i :: 0 <= i < |r| ==> !IsSpace(r[i])
    ensures (forall i :: 0 <= i < |s| ==> !IsUpper(s[i])) ==> forall i :: 0 <= i < |r| ==> !IsUpper(r[i])
    decreases |s|
  {
    if s == [] then []
    else if IsSpace(s[0]) then
      var t := TrimStart(s);
      assert forall i :: 0 <= i < |t| ==> t[i] == s[|s| - |t| + i];
      "-" + CollapseSpaces(t)
    else
      var t := s[1..];
      assert forall i :: 0 <= i < |t| ==> t[i] == s[i + 1];
      [s[0]] + CollapseSpaces(t)
  }

  /** Text without white space is left as it is. */
  lemma {:induction false} CollapseWithoutSpaces(s: string)
    requires forall i :: 0 <= i < |s| ==> !IsSpace(s[i])
    ensures CollapseSpaces(s) == s
    decreases |s|
  {
    if s != [] {
      CollapseWithoutSpaces(s[1..]);
    }
  }

  /** A leading character that is not white space is copied unchanged. */
  lemma CollapseChar(c: char, t: string)
    requires !IsSpace(c)
    ensures CollapseSpaces([c] + t) == [c] + CollapseSpaces(t)
  {
    assert ([c] + t)[1..] == t;
  }

  /** A leading word without white space is copied unchanged. */
  lemma {:induction false} CollapseWord(w: string, rest: string)
    requires forall i :: 0 <= i < |w| ==> !IsSpace(w[i])
    ensures CollapseSpaces(w + rest) == w + CollapseSpaces(rest)
    decreases |w|
  {
    if w != [] {
      var tail := w[1..];
      assert forall i :: 0 <= i < |tail| ==> tail[i] == w[i + 1];
      assert w + rest == [w[0]] + (tail + rest);
      CollapseChar(w[0], tail + rest);
      CollapseWord(tail, rest);
      assert [w[0]] + (tail + CollapseSpaces(rest)) == w + CollapseSpaces(rest);
    } else {
      assert w + rest == rest;
    }
  }

  /** A whole run of white space, however long, becomes exactly one '-'. */
  lemma {:induction false} CollapseRun(run: string, rest: string)
    requires run != [] && AllSpace(run)
    requires rest == [] || !IsSpace(rest[0])
    ensures CollapseSpaces(run + rest) == "-" + CollapseSpaces(rest)
  {
    TrimStartOfRun(run, rest);
  }

  lemma {:induction false} TrimStartOfRun(run: string, rest: string)
    requires AllSpace(run)
    requires rest == [] || !IsSpace(rest[0])
    ensures TrimStart(run + rest) == rest
    decreases |run|
  {
    if run != [] {
      assert (run + rest)[1..] == run[1..] + rest;
      TrimStartOfRun(run[1..], rest);
    } else {
      assert run + rest == rest;
    }
  }

  /** The slug of the selected text. */
  function Slug(text: string): (r: string)
    ensures |r| <= |text|
    ensures forall i :: 0 <= i < |r| ==> !IsSpace(r[i]) && !IsUpper(r[i])
  {
    var lower := Lower(text);
    CollapseSpaces(lower)
  }

  /** Two words separated by any run of white space are joined by a single '-'. */
  lemma {:induction false} CollapseTwoWords(w1: string, run: string, w2: string)
    requires forall i :: 0 <= i < |w1| ==> !IsSpace(w1[i])
    requires forall i :: 0 <= i < |w2| ==> !IsSpace(w2[i])
    requires run != [] && AllSpace(run)
    ensures CollapseSpaces(w1 + run + w2) == w1 + "-" + w2
  {
    assert w1 + run + w2 == w1 + (run + w2);
    CollapseWord(w1, run + w2);
    CollapseRunThenWord(run, w2);
    assert w1 + ("-" + w2) == w1 + "-" + w2;
  }

  lemma CollapseRunThenWord(run: string, w: string)
    requires forall i :: 0 <= i < |w| ==> !IsSpace(w[i])
    requires run != [] && AllSpace(run)
    ensures CollapseSpaces(run + w) == "-" + w
  {
    CollapseRun(run, w);
    CollapseWithoutSpaces(w);
  }

  /** What the link button does to the document. */
  datatype LinkCommand = UnsetLink | SetLink(href: string) | NoCommand

  /**
   * `addLink()`: `linkActive` is `editor.isActive('link')` and `selectedText`
   * the selection's text (already defaulted to '').
   */
  function AddLink(linkActive: bool, selectedText: string): (r: LinkCommand)
    ensures linkActive <==> r == UnsetLink
    ensures !linkActive && selectedText == "" <==> r == NoCommand
    ensures r.SetLink? ==> r.href == LinkBase + Slug(selectedText) && StartsWith(r.href, LinkBase)
  {
    if linkActive then UnsetLink
    else if selectedText != "" then SetLink(LinkBase + Slug(selectedText))
    else NoCommand
  }

  /** `file.type.startsWith('image/')`. */
  predicate IsImage(f: File) {
    StartsWith(f.mimeType, ImageMimePrefix)
  }

  /**
   * The editor's image-upload state: the `isImageUploading` flag and the
   * `src` of every image the reader inserted, in order.
   */
  class ImageUploader {
    var isImageUploading: bool
    var inserted: seq<string>

    constructor ()
      ensures !isImageUploading && inserted == []
    {
      isImageUploading := false;
      inserted := [];
    }

    /** The image button's `disabled`. */
    predicate ImageButtonDisabled()
      reads this
    {
      isImageUploading
    }

    /**
     * `handleImageUpload(event)` up to `reader.readAsDataURL(file)`: returns
     * the alert shown, if any, and whether a read was started.
     */
    method HandleImageUpload(file: Option<File>) returns (alert: Option<string>, reading: bool)
      modifies this`isImageUploading
      ensures reading <==> file.Some? && IsImage(file.value)
      ensures alert == (if file.Some? && !IsImage(file.value) then Some(NotAnImageAlert) else None)
      ensures reading ==> ImageButtonDisabled()
      ensures !reading ==> isImageUploading == old(isImageUploading)
    {
      if file.None? {
        return None, false;
      }
      if !StartsWith(file.value.mimeType, ImageMimePrefix) {
        return Some(NotAnImageAlert), false;
      }
      isImageUploading := true;
      return None, true;
    }

    /** `reader.onload`: insert the image as a data URL and clear the flag. */
    method ReaderLoad(dataUrl: string)
      modifies this
      ensures inserted == old(inserted) + [dataUrl]
      ensures !ImageButtonDisabled()
    {
      inserted := inserted + [dataUrl];
      isImageUploading := false;
    }

    /** `reader.onerror`: alert and clear the flag, inserting nothing. */
    method ReaderError() returns (alert: string)
      modifies this`isImageUploading
      ensures alert == ReadErrorAlert
      ensures !ImageButtonDisabled()
    {
      alert := ReadErrorAlert;
      isImageUploading := false;
    }
  }
}
