/** The tutor catalogue and its lookup by id. */
module Avatars {
  import opened Wrappers
  import Catalog

  datatype TutorAvatar = TutorAvatar(
    id: string,
    name: string,
    persona: string,
    description: string,
    expertise: seq<string>,
    photo: string)

  const TutorAvatars: seq<TutorAvatar> := [
    TutorAvatar("lily", "Lily", "Warm & encouraging mentor",
      "Keeps sessions calm and clear, great for foundational learners.",
      ["Pronunciation", "Listening confidence"],
      "https://images.unsplash.com/photo-1544723795-3fb6469f5b39?auto=format&fit=crop&w=900&q=80"),
    TutorAvatar("owen", "Owen", "Conversational coach",
      "Natural small talk and story-driven guidance for smooth chats.",
      ["Story telling", "Daily chat loops"],
      "https://images.unsplash.com/photo-1506794778202-cad84cf45f1d?auto=format&fit=crop&w=900&q=80"),
    TutorAvatar("nicole", "Nicole", "Structured strategist",
      "Precise grammar corrections and exam-oriented drills.",
      ["Exam prep", "Writing feedback"],
      "https://images.unsplash.com/photo-1524504388940-b1c1722653e1?auto=format&fit=crop&w=900&q=80"),
    TutorAvatar("ben", "Ben", "Business storyteller",
      "Helps you lead meetings with confidence and clarity.",
      ["Presentations", "Negotiation"],
      "https://images.unsplash.com/photo-1544005313-94ddf0286df2?auto=format&fit=crop&w=900&q=80")
  ]

  function AvatarId(a: TutorAvatar): string { a.id }

  /**
   * `findAvatar`: no result for a missing or empty id; otherwise the
   * catalogue entry with that id, and no result exactly when there is none.
   */
  function FindAvatar(avatarId: Option<string>): (r: Option<TutorAvatar>)
    ensures avatarId.None? || avatarId == Some("") ==> r.None?
    ensures r.Some? ==> avatarId == Some(r.value.id) && r.value in TutorAvatars
    ensures avatarId.Some? && avatarId.value != "" ==>
      (r.None? <==> forall k :: 0 <= k < |TutorAvatars| ==> TutorAvatars[k].id != avatarId.value)
  {
    if avatarId.None? || avatarId.value == "" then None
    else Catalog.FindFirst(TutorAvatars, AvatarId, avatarId.value)
  }

  /** The four ids are pairwise distinct. */
  lemma AvatarIdsDistinct()
    ensures Catalog.DistinctKeys(TutorAvatars, AvatarId)
  {
    assert TutorAvatars[0].id == "lily" && TutorAvatars[1].id == "owen";
    assert TutorAvatars[2].id == "nicole" && TutorAvatars[3].id == "ben";
  }

  /** Looking up a catalogue entry's own id returns that entry. */
  lemma FindAvatarReturnsEntry(k: nat)
    requires k < |TutorAvatars|
    ensures FindAvatar(Some(TutorAvatars[k].id)) == Some(TutorAvatars[k])
  {
    AvatarIdsDistinct();
    Catalog.FindFirstUnique(TutorAvatars, AvatarId, k);
  }
}
