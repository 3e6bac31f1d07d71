/** The song record stored by the service and the two shapes it is
    converted to or from: the lyrics DTO and the group/song form. */
module SongModel {

  /** A UUID: the 128-bit primary key of a song. */
  type Uuid = x: nat | x < 0x1_0000_0000_0000_0000_0000_0000_0000_0000

  /** The all-zero UUID, the zero value of Go's uuid.UUID. */
  const NilUuid: Uuid := 0

  /** A row of the songs table. */
  datatype Song = Song(id: Uuid, group: string, song: string, text: string, releaseDate: string, link: string)
  {
    /** Song.ToDto: the release date, text and link, copied unchanged. */
    function ToDto(): (d: Dto)
      ensures d.releaseDate == releaseDate && d.text == text && d.link == link
    {
      Dto(releaseDate, text, link)
    }
  }

  /** The public view of a song: release date, text and link only. */
  datatype Dto = Dto(releaseDate: string, text: string, link: string)

  /** The group/song form of an update request. */
  datatype Form = Form(group: string, song: string)
  {
    /** Form.ToModel: a song with the form's group and song and every other
        field at its zero value. */
    function ToModel(): (s: Song)
      ensures s.group == group && s.song == song
      ensures s.id == NilUuid && s.text == "" && s.releaseDate == "" && s.link == ""
    {
      Song(NilUuid, group, song, "", "", "")
    }
  }

  /** Two songs have the same DTO exactly when their release dates, texts
      and links agree: the identifier, group and song name are dropped. */
  lemma ToDtoForgetsIdentity(a: Song, b: Song)
    ensures a.ToDto() == b.ToDto() <==>
      a.releaseDate == b.releaseDate && a.text == b.text && a.link == b.link
  {
  }

  /** Corollary of the two conversions: the song built from a form gives
      the form back, and its DTO is empty. */
  lemma FormRoundTrip(f: Form)
    ensures Form(f.ToModel().group, f.ToModel().song) == f
    ensures f.ToModel().ToDto() == Dto("", "", "")
  {
  }

  /** Songs.ToDto: a slice of the same length, element i being the DTO of
      song i. */
  method SongsToDto(songs: seq<Song>) returns (dtos: seq<Dto>)
    ensures |dtos| == |songs|
    ensures forall i :: 0 <= i < |songs| ==> dtos[i] == songs[i].ToDto()
  {
    var a := new Dto[|songs|];
    for i := 0 to |songs|
      invariant forall j :: 0 <= j < i ==> a[j] == songs[j].ToDto()
    {
      a[i] := songs[i].ToDto();
    }
    dtos := a[..];
  }
}
